/** The admin panel's editor: the hero and brand form, and the create / edit /
    save / cancel / delete flows over content sections and products. The
    panel keeps at most one section draft and at most one product draft. */
module Admin {
  import opened Types
  import opened KeyedList

  /** The four scalar fields the "Hero & Brand" form edits, each named by
      its input's `name` attribute in the source. */
  datatype ConfigField = BrandName | HeroTitle | HeroSubtitle | HeroImageUrl

  /** The current value of one scalar field of the configuration. */
  function FieldValue(c: SiteConfig, f: ConfigField): string {
    match f
    case BrandName => c.brandName
    case HeroTitle => c.heroTitle
    case HeroSubtitle => c.heroSubtitle
    case HeroImageUrl => c.heroImageUrl
  }

  /** `{ ...prev, [name]: value }`: the named field takes the typed value;
      the other scalar fields and the sections are untouched. */
  function SetConfigField(c: SiteConfig, f: ConfigField, v: string): (r: SiteConfig)
    ensures FieldValue(r, f) == v
    ensures forall g :: g != f ==> FieldValue(r, g) == FieldValue(c, g)
    ensures r.sections == c.sections
  {
    match f
    case BrandName => c.(brandName := v)
    case HeroTitle => c.(heroTitle := v)
    case HeroSubtitle => c.(heroSubtitle := v)
    case HeroImageUrl => c.(heroImageUrl := v)
  }

  /** The four hero and brand fields agree. */
  predicate SameHero(a: SiteConfig, b: SiteConfig) {
    && a.heroTitle == b.heroTitle
    && a.heroSubtitle == b.heroSubtitle
    && a.heroImageUrl == b.heroImageUrl
    && a.brandName == b.brandName
  }

  /** One change typed into the section editor: the title input, a layout
      button, the body textarea, or the image URL input. */
  datatype SectionEdit =
    | SetTitle(title: string)
    | SetKind(kind: SectionType)
    | SetContent(content: string)
    | SetImageUrl(url: string)

  /** `{ ...editingSection, field: value }`: the edited field takes the new
      value, every other field (the identity above all) keeps its value. */
  function ApplySectionEdit(s: ContentSection, e: SectionEdit): (r: ContentSection)
    ensures r.id == s.id
    ensures r.title == (if e.SetTitle? then e.title else s.title)
    ensures r.kind == (if e.SetKind? then e.kind else s.kind)
    ensures r.content == (if e.SetContent? then e.content else s.content)
    ensures r.imageUrl == (if e.SetImageUrl? then Some(e.url) else s.imageUrl)
  {
    match e
    case SetTitle(t) => s.(title := t)
    case SetKind(k) => s.(kind := k)
    case SetContent(c) => s.(content := c)
    case SetImageUrl(u) => s.(imageUrl := Some(u))
  }

  /** One change typed into the product editor. The price arrives already
      parsed; the parsing itself is not part of this model. */
  datatype ProductEdit =
    | SetName(name: string)
    | SetPrice(price: real)
    | SetDescription(description: string)
    | SetProductImageUrl(url: string)

  /** `{ ...editingProduct, field: value }`, as for sections. */
  function ApplyProductEdit(p: Product, e: ProductEdit): (r: Product)
    ensures r.id == p.id
    ensures r.name == (if e.SetName? then e.name else p.name)
    ensures r.price == (if e.SetPrice? then e.price else p.price)
    ensures r.description == (if e.SetDescription? then e.description else p.description)
    ensures r.imageUrl == (if e.SetProductImageUrl? then e.url else p.imageUrl)
  {
    match e
    case SetName(n) => p.(name := n)
    case SetPrice(x) => p.(price := x)
    case SetDescription(d) => p.(description := d)
    case SetProductImageUrl(u) => p.(imageUrl := u)
  }

  /** The placeholder image a new product starts with. */
  const PlaceholderImage := "https://picsum.photos/400/300"

  /** The admin panel's state: the site configuration and product list it
      edits (owned by the application root and passed in with their
      setters), and the two drafts, `null` when no editor is open. */
  class AdminPanel {
    var config: SiteConfig
    var products: seq<Product>
    var editingSection: Option<ContentSection>
    var editingProduct: Option<Product>

    /** Both collections are keyed by distinct identities. Every operation
        below preserves this. */
    ghost predicate IdsUnique()
      reads this
    {
      DistinctIds(config.sections, SectionId) && DistinctIds(products, ProductId)
    }

    constructor (config: SiteConfig, products: seq<Product>)
      ensures this.config == config && this.products == products
      ensures editingSection == None && editingProduct == None
    {
      this.config := config;
      this.products := products;
      editingSection := None;
      editingProduct := None;
    }

    /** `handleConfigChange`: one hero or brand input changed. */
    method HandleConfigChange(f: ConfigField, v: string)
      modifies this
      ensures config == SetConfigField(old(config), f, v)
      ensures products == old(products)
      ensures editingSection == old(editingSection) && editingProduct == old(editingProduct)
      ensures old(IdsUnique()) ==> IdsUnique()
    {
      config := SetConfigField(config, f, v);
    }

    // ---- Sections ----

    /** "Add Block": a new text section with empty title and body under a
        fresh identity (a timestamp in the source, a parameter here). */
    method BeginCreateSection(freshId: string)
      modifies this
      ensures editingSection == Some(ContentSection(freshId, "", "", Text, None))
      ensures config == old(config) && products == old(products) && editingProduct == old(editingProduct)
    {
      editingSection := Some(ContentSection(freshId, "", "", Text, None));
    }

    /** The edit button of the i-th listed section opens a copy of it. */
    method BeginEditSection(i: nat)
      requires i < |config.sections|
      modifies this
      ensures editingSection == Some(old(config.sections[i]))
      ensures config == old(config) && products == old(products) && editingProduct == old(editingProduct)
    {
      editingSection := Some(config.sections[i]);
    }

    /** A change in the open section editor updates the draft only. */
    method EditSectionDraft(e: SectionEdit)
      requires editingSection.Some?
      modifies this
      ensures editingSection == Some(ApplySectionEdit(old(editingSection).value, e))
      ensures config == old(config) && products == old(products) && editingProduct == old(editingProduct)
    {
      editingSection := Some(ApplySectionEdit(editingSection.value, e));
    }

    /** The X button or "Cancel" of the section editor drops the draft. */
    method CancelSection()
      modifies this
      ensures editingSection == None
      ensures config == old(config) && products == old(products) && editingProduct == old(editingProduct)
    {
      editingSection := None;
    }

    /** `saveSection`: without a draft nothing happens; otherwise the draft
        is upserted into the sections, the hero and brand fields stay, and
        the editor closes. */
    method SaveSection()
      modifies this
      ensures old(editingSection).None? ==> config == old(config)
      ensures old(editingSection).Some? ==>
                config == old(config).(sections := Upsert(old(config.sections), SectionId, old(editingSection).value))
      ensures SameHero(old(config), config)
      ensures editingSection == None
      ensures products == old(products) && editingProduct == old(editingProduct)
      ensures old(IdsUnique()) ==> IdsUnique()
    {
      if editingSection.None? {
        return;
      }
      var sections := Upsert(config.sections, SectionId, editingSection.value);
      if IdsUnique() {
        UpsertKeepsIdsDistinct(config.sections, SectionId, editingSection.value);
      }
      config := config.(sections := sections);
      editingSection := None;
    }

    /** `deleteSection`: only when the operator confirms, every section with
        the identity is filtered out. An open draft is left as it is. */
    method DeleteSection(id: string, confirmed: bool)
      modifies this
      ensures confirmed ==> config == old(config).(sections := RemoveById(old(config.sections), SectionId, id))
      ensures !confirmed ==> config == old(config)
      ensures confirmed && old(IdsUnique()) && HasId(old(config.sections), SectionId, id) ==>
                |config.sections| == |old(config.sections)| - 1
      ensures products == old(products)
      ensures editingSection == old(editingSection) && editingProduct == old(editingProduct)
      ensures old(IdsUnique()) ==> IdsUnique()
    {
      if confirmed {
        if IdsUnique() {
          RemoveKeepsIdsDistinct(config.sections, SectionId, id);
          if HasId(config.sections, SectionId, id) {
            RemovePresentShrinksByOne(config.sections, SectionId, id);
          }
        }
        config := config.(sections := RemoveById(config.sections, SectionId, id));
      }
    }

    // ---- Products ----

    /** "Add Product": a new product with empty name and description, price
        0 and the placeholder image, under a fresh identity. */
    method BeginCreateProduct(freshId: string)
      modifies this
      ensures editingProduct == Some(Product(freshId, "", 0.0, "", PlaceholderImage))
      ensures config == old(config) && products == old(products) && editingSection == old(editingSection)
    {
      editingProduct := Some(Product(freshId, "", 0.0, "", PlaceholderImage));
    }

    /** The edit button of the i-th listed product opens a copy of it. */
    method BeginEditProduct(i: nat)
      requires i < |products|
      modifies this
      ensures editingProduct == Some(old(products[i]))
      ensures config == old(config) && products == old(products) && editingSection == old(editingSection)
    {
      editingProduct := Some(products[i]);
    }

    /** A change in the open product editor updates the draft only. */
    method EditProductDraft(e: ProductEdit)
      requires editingProduct.Some?
      modifies this
      ensures editingProduct == Some(ApplyProductEdit(old(editingProduct).value, e))
      ensures config == old(config) && products == old(products) && editingSection == old(editingSection)
    {
      editingProduct := Some(ApplyProductEdit(editingProduct.value, e));
    }

    /** The X button of the product editor drops the draft. */
    method CancelProduct()
      modifies this
      ensures editingProduct == None
      ensures config == old(config) && products == old(products) && editingSection == old(editingSection)
    {
      editingProduct := None;
    }

    /** `saveProduct`: the same upsert as for sections, on the products. */
    method SaveProduct()
      modifies this
      ensures old(editingProduct).None? ==> products == old(products)
      ensures old(editingProduct).Some? ==> products == Upsert(old(products), ProductId, old(editingProduct).value)
      ensures editingProduct == None
      ensures config == old(config) && editingSection == old(editingSection)
      ensures old(IdsUnique()) ==> IdsUnique()
    {
      if editingProduct.None? {
        return;
      }
      var updated := Upsert(products, ProductId, editingProduct.value);
      if IdsUnique() {
        UpsertKeepsIdsDistinct(products, ProductId, editingProduct.value);
      }
      products := updated;
      editingProduct := None;
    }

    /** The trash button of a product: filtered out at once, with no
        confirmation. An open draft is left as it is. */
    method DeleteProduct(id: string)
      modifies this
      ensures products == RemoveById(old(products), ProductId, id)
      ensures old(IdsUnique()) && HasId(old(products), ProductId, id) ==> |products| == |old(products)| - 1
      ensures config == old(config)
      ensures editingSection == old(editingSection) && editingProduct == old(editingProduct)
      ensures old(IdsUnique()) ==> IdsUnique()
    {
      if IdsUnique() {
        RemoveKeepsIdsDistinct(products, ProductId, id);
        if HasId(products, ProductId, id) {
          RemovePresentShrinksByOne(products, ProductId, id);
        }
      }
      products := RemoveById(products, ProductId, id);
    }
  }
}
