/** The records of src/types/index.ts that the client store holds. */
module Entities {
  import opened Wrappers
  import opened Documents

  datatype ContactDetails = ContactDetails(
    email: string,
    githubUrl: Option<string>,
    linkedInUrl: Option<string>,
    twitterUrl: Option<string>,
    phone: Option<string>)

  datatype About = About(
    name: string,
    title: seq<string>,
    avatarUrl: Option<string>,
    description: string,
    resumeUrl: Option<string>,
    contactDetails: ContactDetails)

  datatype ProjectUrl = ProjectUrl(
    demo: Option<string>,
    code: string,
    image: Option<string>,
    imagePublicId: Option<string>)

  datatype Project = Project(
    id: Option<string>,
    title: string,
    date: string,
    url: ProjectUrl,
    description: string,
    stack: seq<string>,
    version: Option<string>,
    icon: Option<string>)

  /** `skills` is declared as an array but read with `exp.skills || []`, so it may be missing. */
  datatype Experience = Experience(
    id: Option<string>,
    role: string,
    company: string,
    startingDate: string,
    endingDate: string,
    responsibilities: string,
    skills: Option<seq<string>>,
    icon: Option<string>)

  /** `qualificationType` is the record's `type` field ('degree', 'professional-certification', 'diploma'). */
  datatype Education = Education(
    id: Option<string>,
    description: string,
    startingDate: string,
    endingDate: string,
    grade: string,
    institution: string,
    major: string,
    title: string,
    qualificationType: string)

  /** `order` is declared `number | string` and is kept as the stored value. */
  datatype Skill = Skill(
    id: Option<string>,
    name: string,
    category: string,
    level: Option<string>,
    icon: string,
    colorClass: Option<string>,
    order: Option<Value>)

  /** An inbox message, with the fields the inbox reads. */
  datatype Message = Message(
    id: Option<string>,
    name: string,
    email: string,
    subject: string,
    message: string,
    date: string,
    read: bool)

  /** The `_id` accessors the slices match on. */
  function ProjectId(p: Project): Option<string> { p.id }
  function ExperienceId(e: Experience): Option<string> { e.id }
  function EducationId(e: Education): Option<string> { e.id }
  function SkillId(s: Skill): Option<string> { s.id }
  function MessageId(m: Message): Option<string> { m.id }
}
