# nit-website: a Dafny model of the site's state and decision rules

The nit website is a single-page marketing site for a creative agency. Almost
all of it is presentation. The logic it does have is a set of small state
machines and decision rules inside its React components, plus one static
lookup module. This project models each of them in Dafny, one module per
source file, and proves the properties the code promises.

- `ProjectImages` (`project_images.dfy`) models the static image catalogue.
  It has a category-to-folder map and an ordered image list per category.
  A lookup of any other category yields no images. There is a
  "first image or placeholder" accessor and a projection to the `src` strings.
- `Services` (`services_section.dfy`) models the services section's scroll
  handler. The handler shows or hides the services and latches the section
  visible. It also moves a thread-progress value that is clamped to [0, 1].
  Service `i` of six is revealed once the progress reaches `(i + 1) / 6 - 0.05`.
  The module also covers the stagger delay of a revealed card and the
  two-digit number label.
- `Projects` (`projects_section.dfy`) models the cyclic previous/next index
  over the four projects. It also models the per-card visibility list, which
  is recomputed from a clamped scroll progress and then overwritten on mount.
- `Modal` (`project_modal.dfy`) models the project modal:
  - the render guard;
  - the three image galleries cut from the project's image list, and their
    arrow rule;
  - the list of carousel handles, updated one slot at a time;
  - the user-interaction flag;
  - the auto-advance tick, which, while auto-advance is active, moves each
    registered carousel with more than one slide on by one slide per slot
    that holds it.
- `Grid` (`project_grid.dfy`) models the project grid:
  - the de-duplicated category list, in first-appearance order;
  - the order-preserving category filter;
  - the empty state and the filter bar;
  - the technology badges, with their `+n` overflow marker;
  - the modal open/close pair.
- `Compact` (`compact_projects_section.dfy`) models the compact section's
  strict in-view test and its `isVisible` state.
- `Contact` (`contact_section.dfy`) models the contact form record. A change
  event overwrites exactly one field. Submitting leaves the record unchanged.
- `Common` (`common.dfy`) holds shared pieces:
  - `Option`;
  - `Math.min(Math.max(...))` clamping;
  - JavaScript's `String(n)` for naturals and `padStart`;
  - a small decimal parser used to state round trips;
  - modular arithmetic lemmas.

React `useState` fields become class fields. Each handler is a method whose
postcondition gives the new state. The non-trivial ones do so through a pure
transition function, and the lemmas about those functions carry the
properties. Scroll offsets and layout
sizes are exact `real`s. This is an exact-arithmetic idealisation of
JavaScript's doubles.

The services rule has six services, so service `i` is revealed at progress
`(i + 1) / 6 - 0.05`. `Services.RevealScenario` checks progress 0.30 and 0.70
against these thresholds.

## Model

| member | source | states |
|---|---|---|
| ProjectImages.GetProjectImages | lib/project-images.ts:18-167 | The list is non-empty exactly when the category is a key of the folder map. Every returned image carries the requested category. |
| ProjectImages.FolderMapContents | lib/project-images.ts:10-15 | The folder map has exactly the keys Branding, Social Media, Web and Photo & Video. Branding and Web map to their own folders, and Social Media and Photo & Video both map to Social. |
| ProjectImages.MappedCategoriesHaveBranches | lib/project-images.ts:10-23 | Every key of the folder map is one of the four categories with a branch, so the trailing `return []` is reached only by unmapped categories. |
| ProjectImages.WebGallery | lib/project-images.ts:23-80 | 'Web' yields exactly 11 images. Image k is file `k+1` (`.png` or `.svg`) under `/projects/Web/termalna-rivijera/`, captioned "Termalna rivijera - Image k+1". |
| ProjectImages.WebGalleryFileTypes | lib/project-images.ts:23-80 | Web files 5, 6, 9 and 11 are `.svg` and the other seven are `.png`, so every Web source path is fixed exactly. |
| ProjectImages.BrandingGallery | lib/project-images.ts:84-121 | 'Branding' yields exactly 7 images. Image k is `/projects/Branding/<k+2>.svg`, captioned "Branding - Design k+1". |
| ProjectImages.SocialGalleries | lib/project-images.ts:125-164 | 'Social Media' and 'Photo & Video' each yield 3 images. Image k is `/projects/Social/<k+1>.svg`. |
| ProjectImages.SocialGalleriesShareFiles | lib/project-images.ts:125-164 | 'Social Media' and 'Photo & Video' show the same three files in the same order. |
| ProjectImages.ImagesLiveInCategoryFolder | lib/project-images.ts:10-15 | Every returned image's `src` starts with `/projects/` followed by the map's folder for the requested category. |
| ProjectImages.SmallDecimals | lib/project-images.ts:23-121 | `String(n)` for the gallery numbers 1 to 11 is the numeral the file names use. |
| ProjectImages.GetProjectMainImage | lib/project-images.ts:170-173 | The result is the first image's `src` for a mapped category and `/placeholder.svg` otherwise. |
| ProjectImages.GetProjectAllImages | lib/project-images.ts:176-178 | The result has as many entries as there are images, and entry k is the `src` of image k. |
| ProjectImages.Sources | lib/project-images.ts:177 | The `.map(img => img.src)` projection has one entry per image, and entry k is the `src` of image k. |
| ProjectImages.MainImageIsFirstOfAll | lib/project-images.ts:170-178 | For a mapped category the main image is the first of all images. Otherwise it is the placeholder, which is not among them. |
| Services.ThreadProgress | components/services-section.tsx:59-61 | The progress lies in [0, 1]. It is 0 at or below 0.8 viewport heights and 1 at or beyond 2.3 viewport heights. |
| Services.OnScroll | components/services-section.tsx:50-67 | The handler records the offset. It shows the services exactly past 0.8 viewport heights and then sets `sectionVisible` (which otherwise keeps its value). When shown, progress is the clamped ratio; the new state is always valid. |
| Services.OnMount | components/services-section.tsx:78-80 | The mount effect sets `sectionVisible` and changes nothing else. |
| Services.OnScrollToServices | components/services-section.tsx:96-97 | The handler sets `showServices` and changes nothing else; in particular `threadProgress` is unchanged. |
| Services.RunKeepsValid | components/services-section.tsx:50-102 | Every sequence of scroll, mount and scroll-to events keeps the progress in [0, 1] and at 0 while the services are hidden. |
| Services.SectionVisibleLatches | components/services-section.tsx:56 | `sectionVisible` is a one-way latch: once true, no sequence of events makes it false. |
| Services.OnScrollIdempotent | components/services-section.tsx:50-67 | Handling the same scroll snapshot twice gives the state of handling it once. |
| Services.IsServiceRevealed | components/services-section.tsx:83-89 | Service `index` is revealed when the services are shown and the progress is at least `(index + 1) / 6 - 0.05`. The properties are proved in `RevealedIsPrefix`, `RevealMonotoneInProgress`, `RevealAtEnds` and `RevealScenario`. |
| Services.RevealedIsPrefix | components/services-section.tsx:83-89 | Nothing is revealed while the services are hidden. Revealing service i implies revealing every service j ≤ i. |
| Services.RevealMonotoneInProgress | components/services-section.tsx:87-88 | Raising the progress never hides a revealed service. |
| Services.RevealAtEnds | components/services-section.tsx:16-47 | With the services shown, progress 1 reveals all six services and progress 0 reveals none. |
| Services.ThreadProgressMonotone | components/services-section.tsx:59-61 | The progress never decreases as the scroll offset grows. |
| Services.ScrollRevealMonotone | components/services-section.tsx:50-89 | A service revealed after a scroll to some offset is also revealed after a scroll to any larger offset, whatever the state before each. |
| Services.ScrollRevealEnds | components/services-section.tsx:50-89 | After a scroll to at most 0.8 viewport heights no service is revealed. After a scroll to at least 2.3 viewport heights all six are. |
| Services.RevealScenario | components/services-section.tsx:87-88 | At progress 0.30 services 0 and 1 are revealed and service 2 is not. At 0.70 services 0 to 3 are revealed and service 4 is not. |
| Services.TransitionDelayMs | components/services-section.tsx:179 | A revealed card's transition delay is `index * 150` ms, and a hidden card's is 0. This is proved in `DelaysStagger`. |
| Services.DelaysStagger | components/services-section.tsx:179 | A hidden card has no delay. A revealed card i waits `i * 150` ms, so revealed cards i < j are `(j - i) * 150` ms apart. |
| Services.NumberLabel | components/services-section.tsx:212 | The label is `String(index + 1)` padded with zeros to two characters. Its meaning is proved in `NumberLabelRoundTrip`. |
| Services.NumberLabelRoundTrip | components/services-section.tsx:212 | The label has at least two characters and reads back as `index + 1`. It is "0" followed by the digit for the first nine services, so "01" to "06" for the six services. |
| Services.ServicesSection.HandleScroll | components/services-section.tsx:50-67 | The new field state is `OnScroll` of the old one. |
| Services.ServicesSection.Mount | components/services-section.tsx:78-80 | The new field state is `OnMount` of the old one. |
| Services.ServicesSection.HandleScrollToServices | components/services-section.tsx:96-97 | The new field state is `OnScrollToServices` of the old one. |
| Services.ServicesSection.constructor | components/services-section.tsx:8-11 | The state starts at offset 0 with everything hidden and progress 0. |
| Common.Clamp | components/services-section.tsx:61 | The result lies in [lo, hi]. A value below the range gives `lo`, a value above it gives `hi`, and a value already in range is returned unchanged. |
| Common.Decimal | components/project-grid.tsx:176 | `String(n)` is a non-empty string of digits. It has one character exactly when n < 10, and that character is n's digit. It starts with '0' only for n = 0, so there are no leading zeros. |
| Common.ParseDecimalOfDecimal | components/services-section.tsx:212 | Reading `String(n)` back as a decimal gives n. |
| Common.ParseDecimalSkipsLeadingZeros | components/services-section.tsx:212 | Zeros put in front by `padStart` do not change the value read back. |
| Common.PadStart | components/services-section.tsx:212 | The result has the target width or the input's length, whichever is larger. It ends with the input, and every character before it is the fill character. |
| Projects.NextProject | components/projects-section.tsx:92-94 | The result stays in [0, 4); it is p + 1, or 0 after the last project. |
| Projects.PrevProject | components/projects-section.tsx:96-98 | The result stays in [0, 4); it is p - 1, or 3 before the first project. |
| Projects.PrevNextInverse | components/projects-section.tsx:92-98 | Previous undoes next and next undoes previous. |
| Projects.NextTimesCycles | components/projects-section.tsx:92-94 | k presses of next move the index to `(p + k) mod 4`. |
| Projects.ScrollProgress | components/projects-section.tsx:29 | The scroll progress is clamped to [0, 1]. It is 0 while the middle of the viewport is at or above the section's top, and 1 once it reaches the section's bottom. |
| Projects.ProjectVisibility | components/projects-section.tsx:31-38 | The list has one entry per ref slot, in index order. Entry k is true exactly when slot k is measured and the progress reaches the card's centre ratio. |
| Projects.UpdatedVisibility | components/projects-section.tsx:23-41 | With the section unmeasured the list is unchanged. Otherwise it is replaced by the freshly computed `ProjectVisibility` list, one entry per ref slot. |
| Projects.UpdateIgnoresPrevious | components/projects-section.tsx:40 | Once the section is measured the result does not depend on the previous list: it is overwritten on every evaluation, never merged. |
| Projects.VisibilityMonotoneInScroll | components/projects-section.tsx:29-37 | Scrolling further down never hides a visible card. |
| Projects.VisibilityIsNotLatched | components/projects-section.tsx:40 | A card visible at one offset is hidden again at a smaller one, whatever was shown before. |
| Projects.UpdateIdempotent | components/projects-section.tsx:23-41 | Re-evaluating with the same snapshot gives the same list. |
| Projects.ProjectsSection.constructor | components/projects-section.tsx:7-9 | The state starts at offset 0 with an empty visibility list and the first project selected. |
| Projects.ProjectsSection.Mount | components/projects-section.tsx:43-55 | After the mount effects run in order, the list is four `false` entries. The update's result is overwritten. |
| Projects.ProjectsSection.UpdateProjectVisibility | components/projects-section.tsx:23-41 | The new list is `UpdatedVisibility` of the old list at the `scrollY` state. Nothing else changes. |
| Projects.ProjectsSection.HandleScroll | components/projects-section.tsx:14-16 | Only `scrollY` changes. |
| Projects.ProjectsSection.Next | components/projects-section.tsx:92-94 | The index becomes `NextProject` of the old one and stays in range. |
| Projects.ProjectsSection.Prev | components/projects-section.tsx:96-98 | The index becomes `PrevProject` of the old one and stays in range. |
| Modal.ShouldRender | components/project-modal.tsx:89 | The modal renders only with a project and while open. `AutoAdvanceActive` and `InteractionTimeout` are stated against this guard. |
| Modal.Advanced | components/project-modal.tsx:54-55 | One tick keeps the slide in range. It moves to the next slide, or back to 0 after the last, and leaves a carousel of at most one slide alone. `AdvancedTimesWraps` and `TickMovesExactlyArrowGalleries` state what repeated ticks and the arrow rule make of it. |
| Modal.AdvancedTimesWraps | components/project-modal.tsx:54-56 | For a carousel of more than one slide, n ticks move slide s to `(s + n) mod total`, so `total` ticks bring it back. |
| Modal.AdvancedTimesStays | components/project-modal.tsx:54 | A carousel of at most one slide never moves. |
| Modal.WithCarouselApi | components/project-modal.tsx:81-86 | The same list comes back when the slot already holds the handle. Otherwise the slot holds the handle, every other slot is unchanged, and the length is as JavaScript's array write leaves it. |
| Modal.Slice | components/project-modal.tsx:160 | JavaScript's `slice` clamps both bounds to the length. Element k of the result is element `start + k` of the input. |
| Modal.Gallery | components/project-modal.tsx:160-252 | Each gallery (slices at lines 160, 206 and 252) has at most four images, and its image k is image `4g + k` of the project. |
| Modal.GalleriesPartitionImages | components/project-modal.tsx:160-252 | The three galleries, concatenated, are exactly the first `min(12, n)` images. They are disjoint, in order, and leave none of those out. |
| Modal.ShowArrows | components/project-modal.tsx:173 | A gallery shows its arrows (lines 173, 219 and 265) when its slice has more than one image. `TickMovesExactlyArrowGalleries` ties this to the tick. |
| Modal.TickMovesExactlyArrowGalleries | components/project-modal.tsx:173 | A tick (the `totalSlides > 1` test at line 54) moves a gallery's carousel exactly when that gallery shows its arrows, that is, when it has more than one image. |
| Modal.ProjectModal.AutoAdvanceTick | components/project-modal.tsx:45-63 | While auto-advance is active, each registered carousel moves on one slide per slot that holds it, and slide counts never change. While inactive, nothing moves. |
| Modal.DistinctSlotsOccurOnce | components/project-modal.tsx:156-248 | With each carousel in its own slot (`setCarouselApi(0)`, `(1)` and `(2)`), every registered handle occurs once, so a tick moves it exactly one slide. |
| Modal.ProjectModal.SetCarouselApi | components/project-modal.tsx:80-87 | The handle list becomes `WithCarouselApi` of the old one. Nothing else changes. |
| Modal.ProjectModal.HandleCarouselInteraction | components/project-modal.tsx:76-78 | The flag is set, so auto-advance stops. Nothing else changes. |
| Modal.ProjectModal.AutoAdvanceActive | components/project-modal.tsx:46 | Auto-advance runs only while open, with a project, and not interacting. In particular it runs only while the modal renders. |
| Modal.ProjectModal.constructor | components/project-modal.tsx:24-25 | The modal starts with no carousel handles and the interaction flag cleared. |
| Modal.ProjectModal.InteractionTimeout | components/project-modal.tsx:66-74 | The timeout is armed only while the flag is set. It clears the flag, so auto-advance resumes exactly when the modal renders, following the guard at line 89. |
| Modal.ProjectModal.SetProps | components/project-modal.tsx:23 | New props replace project and `isOpen`; the state is kept. |
| Modal.CarouselApi.ScrollTo | components/project-modal.tsx:56 | The carousel selects the requested slide and keeps its slide count. |
| Grid.CategoryValues | components/project-grid.tsx:37 | A string is listed exactly when some project has it as a defined, non-empty category. |
| Grid.CategoryValuesKeepsOrder | components/project-grid.tsx:37 | The values of a concatenation of project lists are the values of each part, in the same order, so the list follows the projects' order. |
| Grid.CategoryValuesOfOne | components/project-grid.tsx:37 | A single project contributes its category exactly when that category is defined and non-empty (`filter(Boolean)`). |
| Grid.Distinct | components/project-grid.tsx:37 | The result has the same members as the input and no duplicates. |
| Grid.DistinctSpec | components/project-grid.tsx:37 | The kept values are ordered by their first occurrence in the input. |
| Grid.Categories | components/project-grid.tsx:36-38 | The categories are the distinct truthy category values, or none when the filter is off. Their meaning is proved in `CategoriesSpec`. |
| Grid.CategoriesSpec | components/project-grid.tsx:36-38 | The list is empty when the filter is off. Otherwise it holds each defined, non-empty category exactly once, in order of first appearance. |
| Grid.FilterByCategory | components/project-grid.tsx:42 | A project is kept exactly when its category equals c. |
| Grid.FilterKeepsOrder | components/project-grid.tsx:42 | Filtering distributes over concatenation, so kept projects keep their relative order. |
| Grid.FilterIdempotent | components/project-grid.tsx:42 | Filtering twice by the same category is filtering once. |
| Grid.FilteredProjects | components/project-grid.tsx:41-43 | With no truthy active category all projects are shown. Otherwise exactly the projects of that category are shown. |
| Grid.ListedCategoryIsNeverEmpty | components/project-grid.tsx:37-42 | Choosing a category offered by the filter bar never yields an empty list. |
| Grid.ShowFilterBar | components/project-grid.tsx:66 | The bar is shown when the filter is enabled and the category list is non-empty. `FilterBarSpec` restates this in terms of the projects. |
| Grid.FilterBarSpec | components/project-grid.tsx:66 | The filter bar is shown exactly when it is enabled and some project has a non-empty category. |
| Grid.ShowEmptyState | components/project-grid.tsx:187 | The message is shown when the filtered list is empty. `EmptyStateSpec` restates this in terms of the projects. |
| Grid.EmptyStateSpec | components/project-grid.tsx:187 | The empty state is shown exactly when every project fails the active filter. That means a truthy category is active and no project carries it, or the list is empty. |
| Grid.Badges | components/project-grid.tsx:166 | The badges are the first `min(3, n)` technologies. |
| Grid.OverflowMarker | components/project-grid.tsx:174-178 | The marker is `+` followed by the number of hidden technologies, shown only for more than three. It is proved in `BadgesAccountForAll`. |
| Grid.BadgesAccountForAll | components/project-grid.tsx:166-178 | The `+m` marker appears exactly when technologies are hidden. m reads back as their number, so badges plus m equal n. |
| Grid.ProjectGrid.HandleProjectClick | components/project-grid.tsx:45-48 | The clicked project is selected and the modal is open. The filter is unchanged and the open/selected pair stays consistent. |
| Grid.ProjectGrid.HandleCloseModal | components/project-grid.tsx:50-53 | The modal is closed and nothing is selected. The filter is unchanged. |
| Grid.ProjectGrid.SetActiveCategory | components/project-grid.tsx:70 | The active category is replaced and the modal state is unchanged. |
| Grid.ProjectGrid.constructor | components/project-grid.tsx:31-33 | Nothing is selected, the modal is closed and no category is active. |
| Compact.InView | components/compact-projects-section.tsx:28 | The section is in view when the viewport's bottom edge is more than 200 pixels past the section's top. `InViewIsStrict`, `InViewMonotone` and `InViewIgnoresHeight` are its properties. |
| Compact.InViewIsStrict | components/compact-projects-section.tsx:28 | A viewport bottom exactly 200 pixels past the section top is not in view. One pixel further is. |
| Compact.InViewMonotone | components/compact-projects-section.tsx:28 | Scrolling further down keeps the section in view. |
| Compact.InViewIgnoresHeight | components/compact-projects-section.tsx:25-28 | The decision does not depend on the section height, which is read but unused. |
| Compact.UpdatedVisibility | components/compact-projects-section.tsx:21-31 | The flag is unchanged while the section is unmeasured. Otherwise it is exactly the in-view test. |
| Compact.VisibilityIsNotLatched | components/compact-projects-section.tsx:30 | The section shown at one offset is hidden again after scrolling back up. |
| Compact.CompactProjectsSection.constructor | components/compact-projects-section.tsx:7-8 | The state starts at offset 0 and not visible. |
| Compact.CompactProjectsSection.HandleScroll | components/compact-projects-section.tsx:12-14 | Only `scrollY` changes. |
| Compact.CompactProjectsSection.UpdateVisibility | components/compact-projects-section.tsx:21-31 | The flag becomes `UpdatedVisibility` of the old flag at the `scrollY` state. |
| Contact.WithField | components/contact-section.tsx:22-25 | The changed field holds the event's value and the other two fields are unchanged. |
| Contact.FieldsDetermineForm | components/contact-section.tsx:9-13 | A record is determined by its three fields. |
| Contact.ChangeIdempotent | components/contact-section.tsx:21-26 | Applying the same change twice is applying it once, and a later change to a field overwrites an earlier one. |
| Contact.ChangesCommute | components/contact-section.tsx:21-26 | Changes to two different fields can be applied in either order. |
| Contact.ContactSection.constructor | components/contact-section.tsx:9-13 | The record starts with name, email and message all empty. |
| Contact.ContactSection.HandleChange | components/contact-section.tsx:21-26 | The record becomes `WithField` of the old one. |
| Contact.ContactSection.HandleSubmit | components/contact-section.tsx:15-19 | Submitting prevents the default action and hands the current record to the log. It changes no state. |

## Left out

- Browser wiring is not modelled. This covers adding and removing the scroll, resize and popstate listeners, `history.pushState` with the back-button close, `scrollIntoView`, `window.open` and `console.log`. These are effects on the host page. Each handler is modelled as the state change it makes, with `window.scrollY` and `window.innerHeight` passed in as parameters.
- Timers are not modelled as time. The 4000 ms auto-advance interval and the 5000 ms interaction reset are discrete events: `AutoAdvanceTick` and `InteractionTimeout`.
- The carousel library is foreign code. Its API is reduced to a selected slide, a slide count and `scrollTo`, which is what the modal uses.
- Modal.ProjectModal.AutoAdvanceTick reads the current handle list. The interval in the code keeps the list of the render in which the effect last ran, so the model does not capture a stale list of handles.
- Contact.ContactSection.HandleChange applies each change to the current record. The code spreads the `formData` of the last render, so two changes batched into one render would lose the first; React's batching is not modelled.
- Contact.Field has only the three inputs' names. A change event from an element with any other `name` would add a fourth key to the record in the code.
- ProjectImages.GetProjectImages treats the folder map as a plain map. Inherited object keys such as "constructor" pass the code's `!folderName` test but then fall through to the final `return []`, so the result is the same empty list.
- The SVG thread height in the services section and the `isClient` hydration flag it depends on are not modelled. They are drawing arithmetic with no contract.
- JavaScript double rounding is not modelled: scroll offsets and sizes are exact reals. The zero-height layouts are excluded by a `requires` that heights are positive. There the code divides by zero and yields Infinity or NaN.
- Modal.DistinctSlotsOccurOnce assumes each carousel registers its own handle in its own slot. If one handle sat in two slots, the code would move it once per slot, and `AutoAdvanceTick` states exactly that.
- The projects' and services' static texts, images and links, and all CSS classes and styles, are presentation only.
- components/global-cursor.tsx, components/about-section.tsx, components/compact-modal.tsx, app/page.tsx and app/layout.tsx are not part of this model. They hold animation-frame scheduling and static markup only.
- components/modal-grid-demo.tsx is not a separate model. Its open/close pair is the grid's, so `Grid.ProjectGrid.HandleProjectClick` and `HandleCloseModal` cover it.
