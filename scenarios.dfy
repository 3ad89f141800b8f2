/** End-to-end runs of the editor on the seed data, stated as contracts of
    methods that drive an `AdminPanel` and report what it ends up holding,
    plus the relation between a brand edit and the rendered page. */
module Scenarios {
  import opened Types
  import opened Seeds
  import opened KeyedList
  import opened Admin
  import opened PublicSite

  /** Start from the seeds, add a product, fill in its four fields and save:
      the list grows by exactly one record, the new one last, carrying the
      values typed in, with the seeded products untouched in front of it. */
  method CreateProductScenario() returns (ps: seq<Product>)
    ensures |ps| == |InitialProducts| + 1
    ensures ps[..|InitialProducts|] == InitialProducts
    ensures ps[|InitialProducts|] == Product("3", "Starter", 10.0, "x", "y")
  {
    var panel := new AdminPanel(InitialConfig, InitialProducts);
    panel.BeginCreateProduct("3");
    panel.EditProductDraft(SetName("Starter"));
    panel.EditProductDraft(SetPrice(10.0));
    panel.EditProductDraft(SetDescription("x"));
    panel.EditProductDraft(SetProductImageUrl("y"));
    assert !HasId(InitialProducts, ProductId, "3") by {
      forall i | 0 <= i < |InitialProducts| ensures ProductId(InitialProducts[i]) != "3" {
        assert ProductId(InitialProducts[i]) == ["1", "2"][i];
      }
    }
    ghost var draft := Product("3", "Starter", 10.0, "x", "y");
    assert panel.editingProduct == Some(draft);
    panel.SaveProduct();
    ps := panel.products;
    assert ps == InitialProducts + [draft];
  }

  /** Open the second seeded section, retitle it and save: the list keeps
      its length, the edited section stays in second place with its new
      title, and the first section is untouched. */
  method EditSectionScenario() returns (ss: seq<ContentSection>)
    ensures |ss| == 2
    ensures ss[0] == MissionSection
    ensures ss[1] == WhyUsSection.(title := "Why Us")
  {
    var panel := new AdminPanel(InitialConfig, InitialProducts);
    panel.BeginEditSection(1);
    panel.EditSectionDraft(SetTitle("Why Us"));
    ghost var draft := WhyUsSection.(title := "Why Us");
    assert panel.editingSection == Some(draft);
    assert SectionId(InitialConfig.sections[1]) == "sec_2";
    panel.SaveSection();
    ss := panel.config.sections;
    assert ss == ReplaceById(InitialConfig.sections, SectionId, draft);
  }

  /** Open a product, change every field, then cancel: the product list is
      exactly as before and no product draft remains. */
  method CancelProductScenario() returns (ps: seq<Product>, draft: Option<Product>)
    ensures ps == InitialProducts
    ensures draft == None
  {
    var panel := new AdminPanel(InitialConfig, InitialProducts);
    panel.BeginEditProduct(0);
    panel.EditProductDraft(SetName("Changed"));
    panel.EditProductDraft(SetPrice(1.0));
    panel.CancelProduct();
    ps, draft := panel.products, panel.editingProduct;
  }

  /** Delete a seeded section: declined, the sections stay; confirmed, only
      the other section remains. */
  method DeleteSectionScenario() returns (declined: seq<ContentSection>, confirmed: seq<ContentSection>)
    ensures declined == InitialConfig.sections
    ensures confirmed == [WhyUsSection]
  {
    var panel := new AdminPanel(InitialConfig, InitialProducts);
    panel.DeleteSection("sec_1", false);
    declined := panel.config.sections;
    panel.DeleteSection("sec_1", true);
    confirmed := panel.config.sections;
    assert confirmed == RemoveById([MissionSection, WhyUsSection], SectionId, "sec_1");
    assert RemoveById([MissionSection, WhyUsSection], SectionId, "sec_1")
        == RemoveById([WhyUsSection], SectionId, "sec_1");
  }

  /** Editing the brand name shows the new name both in the navigation bar
      and in the footer, and nothing else of the hero changes. */
  lemma BrandEditShownInNavAndFooter(c: SiteConfig, ps: seq<Product>, v: string)
    ensures var p := RenderPage(SetConfigField(c, BrandName, v), ps);
            p.navBrand == v && p.footerBrand == v &&
            p.heroTitle == c.heroTitle && p.heroSubtitle == c.heroSubtitle && p.blocks == RenderPage(c, ps).blocks
  {
  }
}
