/**
 * The skills section: the label of each skill level, the dialog state set by a click on a skill
 * and cleared by the close actions, and what the dialog lists for the selected skill.
 */
module SkillsSection {
  import opened Wrappers
  import opened Seqs
  import opened PortfolioData

  /** `skillLevelLabels` */
  function LevelLabel(level: SkillLevel): (text: string)
    ensures |text| > 0
    ensures text[0] == (match level
                         case Beginner => 'B'
                         case Intermediate => 'I'
                         case Advanced => 'A'
                         case Expert => 'E')
  {
    match level
    case Beginner => "Beginner"
    case Intermediate => "Intermediate"
    case Advanced => "Advanced"
    case Expert => "Expert"
  }

  /** No two levels share a label, so the label identifies the level. */
  lemma LabelsDistinct(a: SkillLevel, b: SkillLevel)
    requires LevelLabel(a) == LevelLabel(b)
    ensures a == b
  {
    assert LevelLabel(a)[0] == LevelLabel(b)[0];
  }

  /** `${skill.name} • ${skillLevelLabels[skill.level]}`, the text of a chip and of the dialog title. */
  function ChipLabel(name: string, level: SkillLevel): (text: string)
    ensures |text| == |name| + 3 + |LevelLabel(level)|
    ensures text[..|name|] == name
    ensures text[|name|..|name| + 3] == " • "
    ensures text[|name| + 3..] == LevelLabel(level)
  {
    name + " • " + LevelLabel(level)
  }

  // ---------------------------------------------------------------------------
  // Dialog state

  class SkillsSectionState {
    var selectedSkill: Option<SkillWithDetails>
    var modalOpen: bool

    /** The dialog is only ever open on a selected skill. */
    predicate Valid()
      reads this
    {
      modalOpen ==> selectedSkill.Some?
    }

    constructor()
      ensures selectedSkill == None && !modalOpen
      ensures Valid()
    {
      selectedSkill := None;
      modalOpen := false;
    }

    /** `handleSkillClick`: select the details of the clicked skill and open the dialog. */
    method HandleSkillClick(skillName: string)
      modifies this
      ensures selectedSkill == Some(GetSkillDetails(skillName))
      ensures selectedSkill.value.name == skillName
      ensures modalOpen
      ensures Valid()
    {
      selectedSkill := Some(GetSkillDetails(skillName));
      modalOpen := true;
    }

    /** Closing (backdrop or button) hides the dialog and keeps the selection. */
    method Close()
      requires Valid()
      modifies this
      ensures !modalOpen
      ensures selectedSkill == old(selectedSkill)
      ensures Valid()
    {
      modalOpen := false;
    }
  }

  // ---------------------------------------------------------------------------
  // Dialog content

  /** `project => project.isPublic` */
  predicate IsPublicProject(project: SkillProject) {
    project.isPublic
  }

  /** The projects box: a grid of public cards with an optional private note, or a message. */
  datatype ProjectsBox =
    | ProjectGrid(cards: seq<SkillProject>, privateNote: bool)
    | NoProjectsMessage

  /**
   * The grid appears whenever the skill has projects, with a card per public project in order and
   * the note exactly when some project is not public; a skill without projects gets the message.
   */
  function ProjectsBoxFor(projects: seq<SkillProject>): (box: ProjectsBox)
    ensures box.NoProjectsMessage? <==> projects == []
    ensures box.ProjectGrid? ==> box.cards == Filter(projects, IsPublicProject)
    ensures box.ProjectGrid? ==> (box.privateNote <==> exists i :: 0 <= i < |projects| && !projects[i].isPublic)
  {
    if |projects| > 0 then
      ProjectGrid(Filter(projects, IsPublicProject), HasPrivateProject(projects))
    else NoProjectsMessage
  }

  /** `projects.some(p => !p.isPublic)` */
  function HasPrivateProject(projects: seq<SkillProject>): (b: bool)
    ensures b <==> exists i :: 0 <= i < |projects| && !projects[i].isPublic
  {
    if projects == [] then false
    else !projects[0].isPublic || HasPrivateProject(projects[1..])
  }

  /**
   * The cards and the projects the note stands for make up all the projects; when every project
   * is private the grid shows no card, only the note, and not the "no projects" message.
   */
  lemma CardsAndNoteCoverProjects(projects: seq<SkillProject>)
    requires projects != []
    ensures var box := ProjectsBoxFor(projects);
      |box.cards| + |Reject(projects, IsPublicProject)| == |projects|
      && (box.privateNote <==> Reject(projects, IsPublicProject) != [])
      && ((forall i :: 0 <= i < |projects| ==> !projects[i].isPublic) ==> box.cards == [] && box.privateNote)
  {
    Partition(projects, IsPublicProject);
    NoteIffHidden(projects);
    if forall i :: 0 <= i < |projects| ==> !projects[i].isPublic {
      NoPublicNoCards(projects);
    }
  }

  /** Some project is private exactly when the rejected (private) projects are not none. */
  lemma NoteIffHidden(projects: seq<SkillProject>)
    ensures HasPrivateProject(projects) <==> Reject(projects, IsPublicProject) != []
  {
    var hidden := Reject(projects, IsPublicProject);
    if hidden != [] {
      assert hidden[0] in projects;
    }
  }

  /** Without a public project there is no card. */
  lemma NoPublicNoCards(projects: seq<SkillProject>)
    requires forall i :: 0 <= i < |projects| ==> !projects[i].isPublic
    ensures Filter(projects, IsPublicProject) == []
  {
  }

  /** What the dialog shows for the selected skill. */
  datatype SkillDialog = SkillDialog(
    title: string,
    projects: ProjectsBox,
    experiences: seq<SkillExperience>,
    noExperienceMessage: bool)

  /** `{selectedSkill && (...)}`: an empty dialog until a skill is selected. */
  function DialogFor(selected: Option<SkillWithDetails>): (d: Option<SkillDialog>)
    ensures d.Some? <==> selected.Some?
    ensures d.Some? ==> d.value.title == ChipLabel(selected.value.name, selected.value.level)
    ensures d.Some? ==> d.value.projects == ProjectsBoxFor(selected.value.projects)
    ensures d.Some? ==> d.value.experiences == selected.value.experiences
    ensures d.Some? ==> (d.value.noExperienceMessage <==> selected.value.experiences == [])
  {
    match selected
    case None => None
    case Some(skill) =>
      Some(SkillDialog(ChipLabel(skill.name, skill.level), ProjectsBoxFor(skill.projects),
                       skill.experiences, skill.experiences == []))
  }

  /**
   * Clicking a skill that has no stored details opens a dialog titled with the clicked name and
   * the intermediate level, with the "no projects" message and no experiences.
   */
  lemma ClickOnUndetailedSkill(skillName: string)
    requires skillName !in SkillDetailsMap
    ensures var d := DialogFor(Some(GetSkillDetails(skillName))).value;
      d.title == ChipLabel(skillName, Intermediate)
      && d.projects == NoProjectsMessage
      && d.experiences == [] && d.noExperienceMessage
  {
  }
}
