/** The built-in seed data the application starts from when nothing is stored. */
module Seeds {
  import opened Types
  import opened KeyedList

  const MissionSection := ContentSection(
    "sec_1",
    "Our Mission",
    "We believe that technology should empower creativity, not hinder it. Our team works tirelessly to bridge the gap between complex engineering and intuitive design.",
    ImageRight,
    Some("https://images.unsplash.com/photo-1522071820081-009f0129c71c?auto=format&fit=crop&q=80&w=1000"))

  const WhyUsSection := ContentSection(
    "sec_2",
    "Why Choose Us?",
    "With over a decade of experience in the industry, we provide unmatched reliability and performance. Our solutions are used by thousands of global brands.",
    ImageLeft,
    Some("https://images.unsplash.com/photo-1552664730-d307ca884978?auto=format&fit=crop&q=80&w=1000"))

  const InitialConfig := SiteConfig(
    "Revolutionize Your Workflow",
    "The most advanced platform for modern creators and visionary teams.",
    "https://images.unsplash.com/photo-1497215728101-856f4ea42174?auto=format&fit=crop&q=80&w=2070",
    "Lumina",
    [MissionSection, WhyUsSection])

  const InitialProducts := [
    Product(
      "1",
      "Standard Pack",
      49.0,
      "Perfect for individuals and small teams starting their journey.",
      "https://images.unsplash.com/photo-1523275335684-37898b6baf30?auto=format&fit=crop&q=80&w=1999"),
    Product(
      "2",
      "Professional Series",
      99.0,
      "Advanced features for professionals seeking high-performance results.",
      "https://images.unsplash.com/photo-1505740420928-5e560c06d30e?auto=format&fit=crop&q=80&w=2070")
  ]

  /** The seeds key both lists by pairwise-distinct identities, so an editor
      started from them begins with its id invariant in force. */
  lemma SeedIdsDistinct()
    ensures DistinctIds(InitialConfig.sections, SectionId)
    ensures DistinctIds(InitialProducts, ProductId)
  {
  }
}
