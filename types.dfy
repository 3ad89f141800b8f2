/** The site builder's domain records: a catalog product, a content section
    shown on the public page, and the singleton site configuration. */
module Types {

  datatype Option<+T> = None | Some(value: T)

  /** A catalog entry. The price is a JavaScript number in the source; the
      model keeps it as a real, which leaves out NaN and the infinities. */
  datatype Product = Product(
    id: string,
    name: string,
    price: real,
    description: string,
    imageUrl: string)

  /** The three layouts a content section can ask for. */
  datatype SectionType = Text | ImageLeft | ImageRight

  /** A content block; its image URL is optional (absent on new blocks). */
  datatype ContentSection = ContentSection(
    id: string,
    title: string,
    content: string,
    kind: SectionType,
    imageUrl: Option<string>)

  /** The hero and brand fields plus the ordered list of content sections. */
  datatype SiteConfig = SiteConfig(
    heroTitle: string,
    heroSubtitle: string,
    heroImageUrl: string,
    brandName: string,
    sections: seq<ContentSection>)

  /** The identity of a product, used to key the product list. */
  function ProductId(p: Product): string { p.id }

  /** The identity of a section, used to key the section list. */
  function SectionId(s: ContentSection): string { s.id }
}
