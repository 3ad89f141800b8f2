/** The public page: a pure function of the site configuration and the
    product list. Each section becomes a block whose layout is decided by
    `SectionRenderer`; each product becomes a card. */
module PublicSite {
  import opened Types

  /** The two columns of a section block, text and image. */
  datatype Column = TextColumn | ImageColumn

  /** What `SectionRenderer` produces for one section: its texts, the image
      it shows (if any), whether the row is `md:flex-row-reverse`, and
      whether the text block is centred. */
  datatype SectionBlock = SectionBlock(
    title: string,
    content: string,
    image: Option<string>,
    reversed: bool,
    centred: bool)

  /** One product card: name, price, description and picture. */
  datatype ProductCard = ProductCard(name: string, price: real, description: string, imageUrl: string)

  /** The rendered page, from the navigation bar down to the footer. */
  datatype Page = Page(
    navBrand: string,
    heroImageUrl: string,
    heroTitle: string,
    heroSubtitle: string,
    blocks: seq<SectionBlock>,
    cards: seq<ProductCard>,
    footerBrand: string,
    copyright: string)

  /** `hasImage`: an image layout whose `imageUrl` is truthy, that is,
      present and not the empty string. */
  predicate HasImage(s: ContentSection) {
    (s.kind == ImageLeft || s.kind == ImageRight) && s.imageUrl.Some? && s.imageUrl.value != ""
  }

  /** `SectionRenderer`. A text section never shows an image, whatever its
      URL; an image layout without a usable URL falls back to centred text;
      the text is centred exactly when no image is shown; the row is
      reversed for every layout but image-left. */
  function RenderSection(s: ContentSection): (b: SectionBlock)
    ensures b.title == s.title && b.content == s.content
    ensures s.kind == Text ==> b.image.None? && b.centred
    ensures b.image.Some? <==> s.kind != Text && s.imageUrl.Some? && |s.imageUrl.value| > 0
    ensures b.image.Some? ==> b.image == s.imageUrl
    ensures b.centred <==> b.image.None?
    ensures b.reversed <==> s.kind != ImageLeft
  {
    var isImageLeft := s.kind == ImageLeft;
    var hasImage := HasImage(s);
    SectionBlock(s.title, s.content, if hasImage then s.imageUrl else None, !isImageLeft, !hasImage)
  }

  /** The children in document order: the text block, then the image block
      when there is one. */
  function DomColumns(b: SectionBlock): (cols: seq<Column>)
    ensures |cols| == (if b.image.Some? then 2 else 1) && cols[0] == TextColumn
    ensures ImageColumn in cols <==> b.image.Some?
  {
    [TextColumn] + (if b.image.Some? then [ImageColumn] else [])
  }

  /** The columns from left to right on a wide screen: `flex-row-reverse`
      lays the children out in reverse document order. (On a narrow screen
      the block is a column and keeps document order.) */
  function VisualColumns(b: SectionBlock): (cols: seq<Column>)
    ensures multiset(cols) == multiset(DomColumns(b))
    ensures b.image.Some? ==> cols == (if b.reversed then [ImageColumn, TextColumn] else [TextColumn, ImageColumn])
    ensures b.image.None? ==> cols == [TextColumn]
  {
    var d := DomColumns(b);
    if b.reversed && |d| == 2 then
      assert d == [d[0], d[1]];
      [d[1], d[0]]
    else d
  }

  /** As coded, an image-left section shows its image in the right-hand
      column. */
  lemma ImageLeftShowsImageOnRight(s: ContentSection)
    requires s.kind == ImageLeft && HasImage(s)
    ensures VisualColumns(RenderSection(s)) == [TextColumn, ImageColumn]
  {
  }

  /** As coded, an image-right section shows its image in the left-hand
      column. */
  lemma ImageRightShowsImageOnLeft(s: ContentSection)
    requires s.kind == ImageRight && HasImage(s)
    ensures VisualColumns(RenderSection(s)) == [ImageColumn, TextColumn]
  {
  }

  /** The layout the layout names ask for: the row is reversed for
      image-left, so that the image column comes first. Everything else is
      as in `RenderSection`. */
  function IntendedRenderSection(s: ContentSection): (b: SectionBlock)
    ensures b == RenderSection(s).(reversed := b.reversed)
    ensures HasImage(s) ==>
              VisualColumns(b) == if s.kind == ImageLeft then [ImageColumn, TextColumn] else [TextColumn, ImageColumn]
    ensures !HasImage(s) ==> VisualColumns(b) == [TextColumn]
  {
    RenderSection(s).(reversed := s.kind == ImageLeft)
  }

  /** One block per section, in sequence order. */
  function RenderSections(ss: seq<ContentSection>): (bs: seq<SectionBlock>)
    ensures |bs| == |ss|
    ensures forall i :: 0 <= i < |ss| ==> bs[i] == RenderSection(ss[i])
  {
    if ss == [] then [] else [RenderSection(ss[0])] + RenderSections(ss[1..])
  }

  /** Rendering the sections works block by block: rendering two lists one
      after the other is rendering their concatenation. */
  lemma RenderSectionsAppend(a: seq<ContentSection>, b: seq<ContentSection>)
    ensures RenderSections(a + b) == RenderSections(a) + RenderSections(b)
  {
  }

  function RenderCard(p: Product): ProductCard {
    ProductCard(p.name, p.price, p.description, p.imageUrl)
  }

  /** One card per product, in list order, each showing that product's
      name, price, description and image. */
  function RenderCards(ps: seq<Product>): (cs: seq<ProductCard>)
    ensures |cs| == |ps|
    ensures forall i :: 0 <= i < |ps| ==>
              cs[i].name == ps[i].name && cs[i].price == ps[i].price &&
              cs[i].description == ps[i].description && cs[i].imageUrl == ps[i].imageUrl
  {
    if ps == [] then [] else [RenderCard(ps[0])] + RenderCards(ps[1..])
  }

  /** `PublicSite`: the brand name in the navigation bar, the footer and
      its copyright line; the hero from the three hero fields; the section
      blocks and product cards in order. */
  function RenderPage(c: SiteConfig, ps: seq<Product>): (p: Page)
    ensures p.navBrand == c.brandName && p.footerBrand == c.brandName
    ensures p.copyright == "\U{A9} 2024 " + c.brandName + ". All rights reserved."
    ensures p.heroTitle == c.heroTitle && p.heroSubtitle == c.heroSubtitle && p.heroImageUrl == c.heroImageUrl
    ensures |p.blocks| == |c.sections|
    ensures forall i :: 0 <= i < |c.sections| ==> p.blocks[i] == RenderSection(c.sections[i])
    ensures |p.cards| == |ps|
    ensures forall i :: 0 <= i < |ps| ==>
              p.cards[i].name == ps[i].name && p.cards[i].price == ps[i].price &&
              p.cards[i].description == ps[i].description && p.cards[i].imageUrl == ps[i].imageUrl
  {
    Page(
      c.brandName,
      c.heroImageUrl,
      c.heroTitle,
      c.heroSubtitle,
      RenderSections(c.sections),
      RenderCards(ps),
      c.brandName,
      "\U{A9} 2024 " + c.brandName + ". All rights reserved.")
  }
}
