/** The `about` slice (src/redux/features/AboutSlice.tsx): the owner's profile record. */
module AboutSlice {
  import opened Wrappers
  import opened Entities

  /** The profile before anything is fetched: every text empty, no titles. */
  function InitialAbout(): (a: About)
    ensures a.name == "" && a.title == [] && a.description == ""
    ensures a.contactDetails == ContactDetails("", Some(""), Some(""), Some(""), Some(""))
    ensures a.avatarUrl == Some("") && a.resumeUrl == Some("")
  {
    About(
      name := "",
      title := [],
      avatarUrl := Some(""),
      description := "",
      resumeUrl := Some(""),
      contactDetails := ContactDetails(
        email := "", githubUrl := Some(""), linkedInUrl := Some(""),
        twitterUrl := Some(""), phone := Some("")))
  }

  /** `setAbout`: the reducer returns the payload, so no field of the old record survives. */
  function SetAbout(state: About, payload: About): About {
    payload
  }

  /** The new profile is the payload, whatever the old one was. */
  lemma SetAboutReplaces(state: About, payload: About)
    ensures SetAbout(state, payload) == payload
    ensures forall other :: SetAbout(other, payload) == SetAbout(state, payload)
  {
  }

  /** Of two successive `setAbout` calls, only the second matters. */
  lemma SetAboutLastWriteWins(state: About, first: About, second: About)
    ensures SetAbout(SetAbout(state, first), second) == SetAbout(state, second)
  {
  }
}
