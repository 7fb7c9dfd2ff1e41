# Portfolio view-state model

A Dafny model of the view-state controller of the portfolio page's
`FullWidthTabs` component (`src/Pages/Portofolio.jsx`). The component
holds a tab index, the loaded projects and certificates, two "See More /
See Less" flags, and the state of two dialogs (certificate detail and tech
stack overview). Its event handlers update that state one field at a time.

- `wrappers.dfy`: `Option`. A JavaScript `null` or a missing property becomes `None`.
- `records.dfy`: the raw project record, the normalised project record and the certificate record.
- `disclosure.dfy`: the collapse threshold (`initialItems`), the visible prefix of a list
  (`slice(0, initialItems)`), and when the toggle control is offered.
- `normalization.dfy`: the `projectsData.map(...)` step of `fetchData`, which makes
  `TechStack` always present.
- `portfolio.dfy`: the component as a class `FullWidthTabs`. It has one field per
  `useState` hook and one method per handler. Client methods state the properties that
  span several calls: toggling twice, closing twice, open-then-close and the worked scenarios.

The viewport width is a parameter. The bundled JSON data sets are input sequences.

Some behaviours of the code are easy to miss:
- `initialItems` is computed in the component body from `window.innerWidth`
  (`src/Pages/Portofolio.jsx:99-100`), so it is re-read on every render rather than being fixed when the component mounts.
  For this reason the view functions take the width as a parameter.
- The component does not keep the two dialogs mutually exclusive. `handleCertificateClick`
  leaves `techStackModalOpen` alone, so both dialogs can be open at once and the model allows it.
  The invariant the handlers do keep, "a certificate is selected exactly while the certificate
  dialog is open", is `FullWidthTabs.Valid()`.
- `handleChange` accepts any value without checking it, so `HandleChange` has no precondition
  on the index.

## Model

| member | source | states |
|---|---|---|
| `Disclosure.InitialItems` | src/Pages/Portofolio.jsx:99-100 | the threshold is 4 exactly when the width is below 768 and 6 otherwise, so always 4 or 6 |
| `Disclosure.Displayed` | src/Pages/Portofolio.jsx:172-173 | the shown entries are a prefix of the list in original order; the whole list when expanded or when the list is no longer than the threshold, otherwise exactly the threshold's count |
| `Disclosure.HasMore` | src/Pages/Portofolio.jsx:304 | the toggle is offered exactly when the collapsed view leaves some entry out (strictly shorter than the list) |
| `Disclosure.ExpandAppendsHidden` | src/Pages/Portofolio.jsx:172-173 | the expanded view is the collapsed view followed by the hidden entries, in order |
| `Disclosure.NoToggleNoChange` | src/Pages/Portofolio.jsx:332 | when no toggle is offered, the list looks the same collapsed and expanded |
| `Disclosure.CollapsedBound` | src/Pages/Portofolio.jsx:172-173 | a collapsed list never shows more than six entries on any viewport |
| `Normalization.TechStackOrEmpty` | src/Pages/Portofolio.jsx:115 | `TechStack || []` yields the technology list when present and the empty list otherwise |
| `Normalization.NormalizeProject` | src/Pages/Portofolio.jsx:112-116 | a normalised project keeps its `id` and every other field, and its `TechStack` is the original one or empty |
| `Normalization.NormalizeProjects` | src/Pages/Portofolio.jsx:112-116 | the map keeps length and order: entry i of the result is entry i normalised |
| `Normalization.NormalizeAsRaw` | src/Pages/Portofolio.jsx:112-116 | normalising an already normalised project changes nothing (idempotence) |
| `Normalization.NormalizeChangesOnlyMissing` | src/Pages/Portofolio.jsx:115 | normalisation leaves a raw project as it was exactly when it already has a `TechStack` |
| `Normalization.NormalizeKeepsIds` | src/Pages/Portofolio.jsx:113-114 | the identifiers of the normalised list are those of the raw list, in order |
| `Normalization.DisplayedCommutesWithNormalize` | src/Pages/Portofolio.jsx:172 | the shown project cards are the normalised versions of the raw entries a collapsed list would keep |
| `Portfolio.CertificateDialogTitle` | src/Pages/Portofolio.jsx:388 | the certificate dialog title is never empty: it is the selected certificate's title when that is non-empty, otherwise "Certificate" |
| `Portfolio.FullWidthTabs.DisplayedProjects` | src/Pages/Portofolio.jsx:172 | the shown projects are a prefix of the loaded projects: all of them when expanded or when there are at most as many as the width's threshold, otherwise exactly 4 (width below 768) or 6 |
| `Portfolio.FullWidthTabs.DisplayedCertificates` | src/Pages/Portofolio.jsx:173 | the same for the certificates: a prefix, all of them when expanded or short, otherwise exactly the width's threshold |
| `Portfolio.FullWidthTabs.ProjectsToggleShown` | src/Pages/Portofolio.jsx:304 | the projects toggle is offered exactly when the collapsed projects view hides some project; without it the shown projects are all the projects |
| `Portfolio.FullWidthTabs.CertificatesToggleShown` | src/Pages/Portofolio.jsx:332 | the certificates toggle is offered exactly when the collapsed certificates view hides some certificate; without it all certificates are shown |
| `Portfolio.OpenDialogHasCertificate` | src/Pages/Portofolio.jsx:397-408 | in every state the handlers reach, an open certificate dialog has a certificate selected, so its image and title come from that certificate |
| `Portfolio.FullWidthTabs.constructor` | src/Pages/Portofolio.jsx:91-98 | the initial state is tab 0, no data, both lists collapsed, both dialogs closed and nothing selected |
| `Portfolio.FullWidthTabs.FetchData` | src/Pages/Portofolio.jsx:109-138 | after loading, the projects are the normalised data and the certificates the data unchanged, whether or not the `catch` fallback ran |
| `Portfolio.FullWidthTabs.HandleChange` | src/Pages/Portofolio.jsx:145-147 | the tab index becomes the argument; the frame allows no other field to change |
| `Portfolio.FullWidthTabs.ToggleShowMore` | src/Pages/Portofolio.jsx:149-155 | "projects" negates the projects flag only; any other argument negates the certificates flag only |
| `Portfolio.FullWidthTabs.HandleCertificateClick` | src/Pages/Portofolio.jsx:157-160 | selects the certificate and opens its dialog, touching neither the tech stack dialog nor anything else |
| `Portfolio.FullWidthTabs.HandleTechStackClick` | src/Pages/Portofolio.jsx:162-164 | opens the tech stack dialog and changes nothing else |
| `Portfolio.FullWidthTabs.HandleCloseModal` | src/Pages/Portofolio.jsx:166-170 | from any state, both dialogs are closed and the selection cleared; the initial modal state |
| `Portfolio.ToggleTwice` | src/Pages/Portofolio.jsx:149-155 | toggling the same list twice restores the whole state |
| `Portfolio.CloseTwice` | src/Pages/Portofolio.jsx:166-170 | closing is idempotent and touches no field outside the modal controller |
| `Portfolio.OpenThenClose` | src/Pages/Portofolio.jsx:157-170 | opening either dialog or both from the initial modal state and then closing gives back the initial modal state |

The client methods `SevenProjectsOnDesktop`, `ThreeCertificates` and `ClickCertificate` in
`portfolio.dfy` work through three concrete sequences of handler calls:
- seven projects at width 1024: six are shown and the toggle is offered, then all seven after one toggle;
- three certificates: all three are shown and no toggle is offered;
- clicking one certificate: only the certificate dialog opens, titled with that certificate's title.

The same setter that `handleChange` calls is also passed to the swipeable view as
`onChangeIndex` (`src/Pages/Portofolio.jsx:281`). `HandleChange` models both.

## Left out

- `src/components/Certificate.jsx` is not part of this model. It only forwards a click and stops its propagation, which is DOM event handling.
- Styling, the `ToggleButton` rendering, SVG markup and the MUI `sx` objects. These are presentation only.
- AOS animation setup and the `index % 3` choice of animation. These are presentation done by a third-party library.
- The `localStorage.setItem` writes are browser I/O that nothing reads back. Only their possible failure is modelled, as the `storageFails` parameter of `FetchData`, because a failure sends control to the `catch` block.
- The `console.error` diagnostic, the React effect and callback scheduling, and the asynchronous wrapper of `fetchData`. These are framework plumbing.
- The `window.innerWidth` read. The width is a parameter instead.
- `TabContext`, `TabList`, `TabPanel`, `SwipeableViews` and `Dialog` internals. These are foreign library code.
- The hard-coded `techStacks` table. It is static data with no behaviour.
- `FetchData`: a failure of the `map` itself, such as a `null` project entry, is not modelled. The `catch` block would repeat that map and throw again.
- `HandleChange`: the tab list delivers the tab's string value ("0", "1" or "2") and the swipeable view delivers a number. The component stores either one and converts with `toString` or `parseInt`. The model stores the index as an integer.
- `NormalizeProject`: records are fixed datatypes. Extra JSON properties that the spread would copy are not represented. A `TechStack` holding some other falsy value (`false`, `0`, `""`) is represented as `None`, because `||` replaces it with the empty list as well. A truthy non-array value, which `||` would keep, cannot be represented.
