# Site builder editor and public page, in Dafny

This project models the core of a small client-side site builder. An admin
panel edits a site configuration (brand name, hero title, subtitle and image,
and an ordered list of content sections) and a product catalog. A public page
renders that data.

- `types.dfy` (module `Types`): the records `Product`, `ContentSection` (with
  the three layouts `Text`, `ImageLeft`, `ImageRight` and an optional image
  URL) and `SiteConfig`, as in `types.ts`.
- `seeds.dfy` (module `Seeds`): the seed configuration and the two seed
  products of `constants.ts`.
- `keyed_list.dfy` (module `KeyedList`): the list expressions the editor
  applies to both collections, written once for any record type with the
  identity passed in as `key`:
  - `Find` (the `find` by id);
  - `ReplaceById` (the replacing `map`);
  - `Upsert` (a commit: replace in place or append);
  - `RemoveById` (the deleting `filter`);
  - lemmas about them: order, distinct ids, idempotence, delete-after-commit.
- `admin_panel.dfy` (module `Admin`): the class `AdminPanel`. Its fields are
  the configuration, the product list and the two drafts (`editingSection`,
  `editingProduct`, each `None` when no editor is open). Its methods are the
  panel's handlers. Each method's postcondition gives the whole new state in
  terms of the pure functions above. Each method also keeps the predicate
  `IdsUnique` (both lists have pairwise-distinct ids).
- `public_site.dfy` (module `PublicSite`): `SectionRenderer` as
  `RenderSection`, the column order it produces on a wide screen, and
  `PublicSite` as `RenderPage`. These are functions of their inputs. Equal
  inputs therefore give equal pages, and rendering changes no state.
- `scenarios.dfy` (module `Scenarios`): end-to-end runs of the editor on the
  seed data, and the effect of a brand edit on the page.

Where the layout names and the code disagree, the model follows the code: an
image-left section shows its image in the right-hand column (see Findings).

Product deletion asks for no confirmation in the code, unlike section
deletion. The model follows the code here too.

When the record that is open in a draft is deleted, the code leaves the draft
open, and saving it adds the record back. The model does the same.

## Model

| member | source | states |
|---|---|---|
| KeyedList.Find | pages/AdminPanel.tsx:39 | Finds a record exactly when some element has the id. What it finds has that id and is the first such element. |
| KeyedList.ReplaceById | pages/AdminPanel.tsx:41 | Keeps the length. Each position holds the draft where the old element had the draft's id, and is unchanged elsewhere. |
| KeyedList.Upsert | pages/AdminPanel.tsx:39-42 | If the draft's id is present: same length, every element with that id replaced by the draft, all others in place. Otherwise: the old list is a prefix, the length grows by one, the draft is last. In both cases the draft is in the result, and every element of the result with the draft's id is the draft. |
| KeyedList.RemoveById | pages/AdminPanel.tsx:50 | No element with the id remains. Every kept element comes from the input, and every input element with another id is kept. Nothing is removed when the id is absent. |
| KeyedList.RemoveByIdAppend | pages/AdminPanel.tsx:50 | Filtering works element by element: removing from a concatenation is concatenating the removals, so the original order is kept. |
| KeyedList.RemoveKeepsIdsDistinct | pages/AdminPanel.tsx:50 | Deleting keeps ids pairwise distinct. |
| KeyedList.RemovePresentShrinksByOne | pages/AdminPanel.tsx:48-51 | With distinct ids, deleting an id that is present removes exactly one record. |
| KeyedList.UpsertKeepsIdsDistinct | pages/AdminPanel.tsx:39-42 | Committing a draft keeps the ids of the list pairwise distinct. |
| KeyedList.RemoveAfterReplace | pages/AdminPanel.tsx:41 | The replacing map touches only records with the draft's id. |
| KeyedList.RemoveAfterUpsert | pages/AdminPanel.tsx:55-59 | A commit leaves every record with another id unchanged in content and in relative order. |
| KeyedList.UpsertFreshThenRemove | pages/AdminPanel.tsx:42 | Committing a draft with a new id and then deleting that id gives back the original list. |
| KeyedList.EditedCopyReplacesInPlace | pages/AdminPanel.tsx:144 | A draft with the id of the i-th record replaces it at position i on commit, and the length is unchanged. |
| KeyedList.UpsertIdempotent | pages/AdminPanel.tsx:57-59 | Committing the same draft twice equals committing it once. |
| Admin.SetConfigField | pages/AdminPanel.tsx:31-34 | The named hero/brand field takes the typed value. The other three fields and the sections are unchanged. |
| Admin.ApplySectionEdit | pages/AdminPanel.tsx:164-187 | A title, layout, body or image URL change replaces that field alone. The id never changes. |
| Admin.ApplyProductEdit | pages/AdminPanel.tsx:208-211 | A name, price, description or image URL change replaces that field alone. The id never changes. |
| Admin.AdminPanel.constructor | pages/AdminPanel.tsx:26-29 | Starts from the given configuration and products with both drafts null. |
| Admin.AdminPanel.HandleConfigChange | pages/AdminPanel.tsx:31-34 | The configuration becomes `SetConfigField` of the old one. Products and drafts are unchanged. Distinct ids are kept. |
| Admin.AdminPanel.BeginCreateSection | pages/AdminPanel.tsx:88 | The section draft is a text section with the fresh id, an empty title and body, and no image. Nothing else changes. |
| Admin.AdminPanel.BeginEditSection | pages/AdminPanel.tsx:127 | The section draft is a copy of the i-th section. Nothing else changes. |
| Admin.AdminPanel.EditSectionDraft | pages/AdminPanel.tsx:164-187 | The draft becomes the edited draft. The configuration, products and product draft are unchanged. |
| Admin.AdminPanel.CancelSection | pages/AdminPanel.tsx:192 | The X button (line 159) and Cancel clear the section draft. Both collections are unchanged. |
| Admin.AdminPanel.SaveSection | pages/AdminPanel.tsx:37-46 | With no draft, the configuration is unchanged. Otherwise the sections become the upsert of the draft. The four hero/brand fields are unchanged, and the draft is cleared. Distinct ids are kept. |
| Admin.AdminPanel.DeleteSection | pages/AdminPanel.tsx:48-52 | When confirmed, the sections become those with another id, in order. When declined, the configuration is unchanged. Drafts and products are untouched. Distinct ids are kept. With distinct ids, a confirmed delete of an id that is present removes exactly one section. |
| Admin.AdminPanel.BeginCreateProduct | pages/AdminPanel.tsx:93 | The product draft has the fresh id, an empty name and description, price 0 and the placeholder image. Nothing else changes. |
| Admin.AdminPanel.BeginEditProduct | pages/AdminPanel.tsx:144 | The product draft is a copy of the i-th product. Nothing else changes. |
| Admin.AdminPanel.EditProductDraft | pages/AdminPanel.tsx:208-211 | The draft becomes the edited draft. The configuration, products and section draft are unchanged. |
| Admin.AdminPanel.CancelProduct | pages/AdminPanel.tsx:205 | The X button clears the product draft. Both collections are unchanged. |
| Admin.AdminPanel.SaveProduct | pages/AdminPanel.tsx:55-62 | With no draft, the products are unchanged. Otherwise the products become the upsert of the draft. The draft is cleared and the configuration is untouched. Distinct ids are kept. |
| Admin.AdminPanel.DeleteProduct | pages/AdminPanel.tsx:145 | The products become those with another id, in order, without confirmation. Everything else is unchanged. Distinct ids are kept. With distinct ids, deleting an id that is present removes exactly one product. |
| Seeds.SeedIdsDistinct | constants.ts:9-42 | The seed sections and the seed products each have pairwise-distinct ids, so an editor started from the seeds begins with its id invariant in force. |
| PublicSite.RenderSection | pages/PublicSite.tsx:11-35 | A text section never shows an image. An image is shown iff the layout is not text and the URL is present and non-empty, and it is that URL. Text is centred iff no image is shown. The row is reversed iff the layout is not image-left. |
| PublicSite.DomColumns | pages/PublicSite.tsx:19-31 | The text block is always first in document order. The image block follows iff an image is shown. |
| PublicSite.VisualColumns | pages/PublicSite.tsx:18 | With an image, the columns on screen are image then text when the row is reversed, and text then image otherwise. Without an image there is only the text column. Either way they are a rearrangement of the document-order columns. |
| PublicSite.ImageLeftShowsImageOnRight | pages/PublicSite.tsx:12-31 | As coded, an image-left section with an image shows text, then image, from left to right. |
| PublicSite.ImageRightShowsImageOnLeft | pages/PublicSite.tsx:12-31 | As coded, an image-right section with an image shows image, then text, from left to right. |
| PublicSite.IntendedRenderSection | pages/PublicSite.tsx:18 | The corrected layout: the image comes first for image-left and second for image-right. A section without an image has one column. Everything except the row direction agrees with `RenderSection`. |
| PublicSite.RenderSections | pages/PublicSite.tsx:70-72 | One block per section, in sequence order. |
| PublicSite.RenderSectionsAppend | pages/PublicSite.tsx:70-72 | Rendering the sections commutes with concatenation. |
| PublicSite.RenderCards | pages/PublicSite.tsx:81-95 | One card per product, in list order, with that product's name, price, description and image. |
| PublicSite.RenderPage | pages/PublicSite.tsx:37-107 | The brand name is in the nav bar, the footer and its copyright line. The hero shows the three hero fields. The blocks and cards follow the sections and products in order. |
| Scenarios.CreateProductScenario | pages/AdminPanel.tsx:55-62 | Starting from the seeds: create a product, set its four fields, save. The list grows by exactly one and the new product is last with the typed values. The seed products are unchanged in front of it. |
| Scenarios.EditSectionScenario | pages/AdminPanel.tsx:37-46 | Retitling the second seed section keeps it in second place with the new title. The list length and the first section are unchanged. |
| Scenarios.CancelProductScenario | pages/AdminPanel.tsx:205 | Editing a product and then cancelling leaves the product list as it was, with no draft. |
| Scenarios.DeleteSectionScenario | pages/AdminPanel.tsx:48-52 | A declined delete keeps both seed sections. A confirmed delete of `sec_1` leaves only the second section. |
| Scenarios.BrandEditShownInNavAndFooter | pages/PublicSite.tsx:99-102 | After a brand edit, the nav bar and the footer both show the new name. The hero texts and section blocks are unchanged. |

## Left out

- Persistence (`App.tsx`): loading and saving through `localStorage` with `JSON.parse`/`JSON.stringify`, and the public/admin view switch. These are browser storage, a foreign serialiser, and UI. The save/load round trip is therefore not modelled.
- The description generator (`services/geminiService.ts`). It is an asynchronous call to an external text-generation service with a fallback string.
- Id generation with `Date.now().toString()`. The fresh id is a parameter of `BeginCreateSection` and `BeginCreateProduct`, which do not require it to be unused. `UpsertFreshThenRemove` and `Upsert` show what happens when it is unused.
- `parseFloat` on the price input. The parsed price is a parameter. Price is a `real`, so NaN and the infinities a JavaScript number can hold are not modelled.
- The `confirm` dialog of `deleteSection`. Its answer is the `confirmed` parameter.
- The tab switch (`activeTab`), the admin lists' display (`title || "Untitled Block"`, the `$price` label), the price label `$price/mo` on cards, icons, and styling other than the three layout booleans.
- The narrow-screen layout, where every block stacks text above image in document order.
- React's scheduling of state updates: `saveSection` and `deleteSection` read the rendered `config`, while `handleConfigChange` uses an updater function. Handlers here run one at a time to completion, so both forms act on the current state.
- Both drafts can be open at the same time, as two independent nullable fields. The model does not force the single tagged "at most one draft" selection.

## Findings

| source | as written | input that shows it | evidently intended | confidence | as-written member | corrected member |
|---|---|---|---|---|---|---|
| pages/PublicSite.tsx:18 | `md:flex-row-reverse` is applied to every layout except image-left, and the text block comes before the image block in the document | a section of type image-left with a non-empty image URL: the columns are text then image, so the image is on the right; image-right puts it on the left | image-left shows the image in the first (left) column and image-right in the second, as the "Img Left"/"Img Right" buttons and their align icons say | not executed; follows from CSS `flex-direction: row-reverse` | PublicSite.ImageLeftShowsImageOnRight | PublicSite.IntendedRenderSection |

`RenderPage` keeps the as-written layout (`RenderSection`) so that the page
model matches the code. `IntendedRenderSection` is the corrected layout with
its column order proved.
