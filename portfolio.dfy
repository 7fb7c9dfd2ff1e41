/**
 * The view state of the `FullWidthTabs` component: the active tab, the loaded
 * data, the two disclosure flags and the modal controller, each updated by
 * the event handlers the component passes to its widgets.
 */
module Portfolio {
  import opened Wrappers
  import opened Records
  import opened Disclosure
  import opened Normalization

  /** The argument `toggleShowMore` compares against. */
  const ProjectsKind: string := "projects"

  /** The certificate dialog's title: the certificate's title, or
      "Certificate" when none is selected or its title is empty. */
  function CertificateDialogTitle(selected: Option<Certificate>): (r: string)
    ensures r != []
    ensures selected.Some? && selected.value.title != [] ==> r == selected.value.title
    ensures !(selected.Some? && selected.value.title != []) ==> r == "Certificate"
  {
    if selected.Some? && selected.value.title != [] then selected.value.title else "Certificate"
  }

  class FullWidthTabs {
    var value: int
    var projects: seq<Project>
    var certificates: seq<Certificate>
    var showAllProjects: bool
    var showAllCertificates: bool
    var certificateModalOpen: bool
    var selectedCertificate: Option<Certificate>
    var techStackModalOpen: bool

    /** A certificate is selected exactly while the certificate dialog is open. */
    ghost predicate Valid()
      reads this
    {
      certificateModalOpen <==> selectedCertificate.Some?
    }

    /** The modal fields hold their initial values: both dialogs closed, nothing selected. */
    ghost predicate ModalsClosed()
      reads this
    {
      !certificateModalOpen && selectedCertificate == None && !techStackModalOpen
    }

    /** The state at mount: first tab, no data yet, lists collapsed, dialogs closed. */
    constructor ()
      ensures Valid() && ModalsClosed()
      ensures value == 0
      ensures projects == [] && certificates == []
      ensures !showAllProjects && !showAllCertificates
    {
      value := 0;
      projects := [];
      certificates := [];
      showAllProjects := false;
      showAllCertificates := false;
      certificateModalOpen := false;
      selectedCertificate := None;
      techStackModalOpen := false;
    }

    /** The projects shown on a viewport `width` pixels wide. */
    function DisplayedProjects(width: int): (r: seq<Project>)
      reads this
      ensures IsPrefix(r, projects)
      ensures showAllProjects || |projects| <= InitialItems(width) ==> r == projects
      ensures !showAllProjects && |projects| > InitialItems(width) ==>
        |r| == (if width < MobileBreakpoint then 4 else 6)
    {
      Displayed(projects, showAllProjects, InitialItems(width))
    }

    /** The certificates shown on a viewport `width` pixels wide. */
    function DisplayedCertificates(width: int): (r: seq<Certificate>)
      reads this
      ensures IsPrefix(r, certificates)
      ensures showAllCertificates || |certificates| <= InitialItems(width) ==> r == certificates
      ensures !showAllCertificates && |certificates| > InitialItems(width) ==>
        |r| == (if width < MobileBreakpoint then 4 else 6)
    {
      Displayed(certificates, showAllCertificates, InitialItems(width))
    }

    /** Whether the projects panel offers See More / See Less. */
    function ProjectsToggleShown(width: int): (r: bool)
      reads this
      ensures r <==> Displayed(projects, false, InitialItems(width)) != projects
      ensures !r ==> DisplayedProjects(width) == projects
    {
      HasMore(projects, InitialItems(width))
    }

    /** Whether the certificates panel offers See More / See Less. */
    function CertificatesToggleShown(width: int): (r: bool)
      reads this
      ensures r <==> Displayed(certificates, false, InitialItems(width)) != certificates
      ensures !r ==> DisplayedCertificates(width) == certificates
    {
      HasMore(certificates, InitialItems(width))
    }

    /** Loads the bundled data. The `try` block stores the normalised
        projects and the certificates and then writes them to local storage;
        when a write throws (`storageFails`), the `catch` block recomputes
        and stores the same values again. */
    method FetchData(projectsData: seq<RawProject>, certificatesData: seq<Certificate>,
                     storageFails: bool)
      requires Valid()
      modifies this`projects, this`certificates
      ensures Valid()
      ensures projects == NormalizeProjects(projectsData)
      ensures certificates == certificatesData
    {
      var projectData := NormalizeProjects(projectsData);
      var certificateData := certificatesData;
      projects := projectData;
      certificates := certificateData;
      if storageFails {
        var fallbackProjects := NormalizeProjects(projectsData);
        var fallbackCertificates := certificatesData;
        projects := fallbackProjects;
        certificates := fallbackCertificates;
      }
    }

    /** `handleChange`: selects the tab `newValue`. */
    method HandleChange(newValue: int)
      requires Valid()
      modifies this`value
      ensures Valid()
      ensures value == newValue
    {
      value := newValue;
    }

    /** `toggleShowMore`: flips the projects flag for "projects" and the
        certificates flag for any other argument. */
    method ToggleShowMore(kind: string)
      requires Valid()
      modifies this`showAllProjects, this`showAllCertificates
      ensures Valid()
      ensures kind == ProjectsKind ==>
        showAllProjects == !old(showAllProjects) && showAllCertificates == old(showAllCertificates)
      ensures kind != ProjectsKind ==>
        showAllCertificates == !old(showAllCertificates) && showAllProjects == old(showAllProjects)
    {
      if kind == ProjectsKind {
        showAllProjects := !showAllProjects;
      } else {
        showAllCertificates := !showAllCertificates;
      }
    }

    /** `handleCertificateClick`: selects `certificate` and opens its dialog. */
    method HandleCertificateClick(certificate: Certificate)
      requires Valid()
      modifies this`selectedCertificate, this`certificateModalOpen
      ensures Valid()
      ensures selectedCertificate == Some(certificate) && certificateModalOpen
    {
      selectedCertificate := Some(certificate);
      certificateModalOpen := true;
    }

    /** `handleTechStackClick`: opens the tech stack dialog. */
    method HandleTechStackClick()
      requires Valid()
      modifies this`techStackModalOpen
      ensures Valid()
      ensures techStackModalOpen
    {
      techStackModalOpen := true;
    }

    /** `handleCloseModal`: the one dismissal path of both dialogs. */
    method HandleCloseModal()
      requires Valid()
      modifies this`certificateModalOpen, this`techStackModalOpen, this`selectedCertificate
      ensures Valid() && ModalsClosed()
    {
      certificateModalOpen := false;
      techStackModalOpen := false;
      selectedCertificate := None;
    }
  }

  /** While the certificate dialog is open a certificate is selected, so the
      dialog's image and title come from that certificate. */
  lemma OpenDialogHasCertificate(tabs: FullWidthTabs)
    requires tabs.Valid() && tabs.certificateModalOpen
    ensures tabs.selectedCertificate.Some?
    ensures tabs.selectedCertificate.value.title != [] ==>
      CertificateDialogTitle(tabs.selectedCertificate) == tabs.selectedCertificate.value.title
  {
  }

  /** Toggling the same list twice restores both flags. */
  method ToggleTwice(tabs: FullWidthTabs, kind: string)
    requires tabs.Valid()
    modifies tabs
    ensures tabs.Valid()
    ensures tabs.showAllProjects == old(tabs.showAllProjects)
    ensures tabs.showAllCertificates == old(tabs.showAllCertificates)
    ensures unchanged(tabs`value, tabs`projects, tabs`certificates)
    ensures unchanged(tabs`certificateModalOpen, tabs`selectedCertificate, tabs`techStackModalOpen)
  {
    tabs.ToggleShowMore(kind);
    tabs.ToggleShowMore(kind);
  }

  /** Closing twice is the same as closing once. */
  method CloseTwice(tabs: FullWidthTabs)
    requires tabs.Valid()
    modifies tabs
    ensures tabs.Valid() && tabs.ModalsClosed()
    ensures unchanged(tabs`value, tabs`projects, tabs`certificates)
    ensures unchanged(tabs`showAllProjects, tabs`showAllCertificates)
  {
    tabs.HandleCloseModal();
    tabs.HandleCloseModal();
  }

  /** Opening either dialog (or both) from the closed state and then closing
      returns the modal fields to their initial values. */
  method OpenThenClose(tabs: FullWidthTabs, certificate: Certificate, openCertificate: bool,
                       openTechStack: bool)
    requires tabs.Valid() && tabs.ModalsClosed()
    modifies tabs
    ensures tabs.Valid() && tabs.ModalsClosed()
    ensures unchanged(tabs`value, tabs`projects, tabs`certificates)
    ensures unchanged(tabs`showAllProjects, tabs`showAllCertificates)
  {
    if openCertificate {
      tabs.HandleCertificateClick(certificate);
    }
    if openTechStack {
      tabs.HandleTechStackClick();
    }
    tabs.HandleCloseModal();
  }

  /** Seven projects on a 1024-pixel viewport: six shown and the toggle
      offered; after one toggle all seven are shown. */
  method SevenProjectsOnDesktop(data: seq<RawProject>)
    requires |data| == 7
  {
    var tabs := new FullWidthTabs();
    tabs.FetchData(data, [], false);
    assert |tabs.DisplayedProjects(1024)| == 6;
    assert tabs.ProjectsToggleShown(1024);
    tabs.ToggleShowMore(ProjectsKind);
    assert tabs.DisplayedProjects(1024) == tabs.projects;
    assert |tabs.DisplayedProjects(1024)| == 7;
  }

  /** Three certificates on any viewport: all shown, no toggle. */
  method ThreeCertificates(data: seq<Certificate>, width: int)
    requires |data| == 3
  {
    var tabs := new FullWidthTabs();
    tabs.FetchData([], data, false);
    assert tabs.DisplayedCertificates(width) == data;
    assert !tabs.CertificatesToggleShown(width);
  }

  /** Clicking a certificate from the initial state opens only its dialog. */
  method ClickCertificate()
  {
    var tabs := new FullWidthTabs();
    var aws := Certificate("aws.png", "AWS Cert");
    tabs.HandleCertificateClick(aws);
    assert tabs.certificateModalOpen && tabs.selectedCertificate == Some(aws);
    assert !tabs.techStackModalOpen;
    OpenDialogHasCertificate(tabs);
    assert CertificateDialogTitle(tabs.selectedCertificate) == "AWS Cert";
  }
}
