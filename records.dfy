/**
 * The records the portfolio page works on: project and certificate entries as
 * they come from the bundled JSON data, and the normalised project record that
 * the page keeps in its state.
 */
module Records {
  import opened Wrappers

  /** A project entry as read from the project data file. `techStack` is
      `None` when the entry has no `TechStack` property (or holds `null`). */
  datatype RawProject = RawProject(
    id: Option<string>,
    img: string,
    title: string,
    description: string,
    link: string,
    liveLink: string,
    techStack: Option<seq<string>>)

  /** A project entry after normalisation: `techStack` is always present. */
  datatype Project = Project(
    id: Option<string>,
    img: string,
    title: string,
    description: string,
    link: string,
    liveLink: string,
    techStack: seq<string>)

  /** A certificate entry; an entry without a title has the empty title. */
  datatype Certificate = Certificate(img: string, title: string)
}
