/**
 * The normalisation `fetchData` applies to the project data: every project
 * keeps its identifier and fields and gets a `TechStack` that is always
 * present (`project.TechStack || []`). Certificates are not normalised.
 */
module Normalization {
  import opened Wrappers
  import opened Records
  import Disclosure

  /** `TechStack || []`: the technology list when present, else the empty list. */
  function TechStackOrEmpty(techStack: Option<seq<string>>): (r: seq<string>)
    ensures techStack.Some? ==> r == techStack.value
    ensures techStack.None? ==> r == []
  {
    match techStack
    case Some(tags) => tags
    case None => []
  }

  /** One project record, `{ id: project.id, ...project, TechStack: ... }`. */
  function NormalizeProject(p: RawProject): (r: Project)
    ensures r.id == p.id
    ensures r.img == p.img && r.title == p.title && r.description == p.description
    ensures r.link == p.link && r.liveLink == p.liveLink
    ensures p.techStack.Some? ==> r.techStack == p.techStack.value
    ensures p.techStack.None? ==> r.techStack == []
  {
    Project(p.id, p.img, p.title, p.description, p.link, p.liveLink,
            TechStackOrEmpty(p.techStack))
  }

  /** `projectsData.map(...)`: normalises every project, keeping length and order. */
  function NormalizeProjects(ps: seq<RawProject>): (r: seq<Project>)
    ensures |r| == |ps|
    ensures forall i :: 0 <= i < |ps| ==> r[i] == NormalizeProject(ps[i])
  {
    if ps == [] then [] else [NormalizeProject(ps[0])] + NormalizeProjects(ps[1..])
  }

  /** A normalised project written back as a raw record, `TechStack` present. */
  function AsRaw(p: Project): (r: RawProject)
    ensures r.techStack == Some(p.techStack)
  {
    RawProject(p.id, p.img, p.title, p.description, p.link, p.liveLink, Some(p.techStack))
  }

  /** Normalising a normalised project gives it back unchanged. */
  lemma NormalizeAsRaw(p: Project)
    ensures NormalizeProject(AsRaw(p)) == p
  {
  }

  /** Normalisation changes a raw project exactly when it has no `TechStack`. */
  lemma NormalizeChangesOnlyMissing(p: RawProject)
    ensures AsRaw(NormalizeProject(p)) == p <==> p.techStack.Some?
  {
  }

  /** The identifiers of a list of raw projects, in order. */
  function RawIds(ps: seq<RawProject>): seq<Option<string>>
  {
    if ps == [] then [] else [ps[0].id] + RawIds(ps[1..])
  }

  /** The identifiers of a list of normalised projects, in order. */
  function Ids(ps: seq<Project>): seq<Option<string>>
  {
    if ps == [] then [] else [ps[0].id] + Ids(ps[1..])
  }

  /** Normalisation keeps every identifier, in the original order. */
  lemma {:induction false} NormalizeKeepsIds(ps: seq<RawProject>)
    ensures Ids(NormalizeProjects(ps)) == RawIds(ps)
  {
    if ps != [] {
      NormalizeKeepsIds(ps[1..]);
      assert NormalizeProjects(ps)[1..] == NormalizeProjects(ps[1..]);
    }
  }

  /** The cards the page shows are the normalised versions of the first raw
      entries: collapsing after normalising equals normalising the entries
      a collapsed list would keep. */
  lemma DisplayedCommutesWithNormalize(ps: seq<RawProject>, showAll: bool, limit: nat)
    ensures Disclosure.Displayed(NormalizeProjects(ps), showAll, limit)
            == NormalizeProjects(Disclosure.Displayed(ps, showAll, limit))
  {
  }
}
