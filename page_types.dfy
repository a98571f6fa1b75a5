/** Page and topic types shared by the forum, the title editor, the
    change-page dialog and the top bar. */
module PageTypes {

  /** The page roles the modelled files name; `OtherRole` stands for every
      role of the enumeration that none of them names. */
  datatype PageRole =
    | CustomHtmlPage | WebPage | Forum | HomePage | Question | Problem | Idea
    | ToDo | MindMap | Discussion | FormalMessage | OpenChat | PrivateChat
    | UsabilityTesting | OtherRole

  predicate IsWebPage(role: PageRole) {
    role == CustomHtmlPage || role == WebPage
  }

  datatype DoingStatus = Discussing | Planned | Started | Done

  datatype TopicListLayout =
    | TitleOnly | TitleExcerptSameLine | ExcerptBelowTitle | ThumbnailsBelowTitle | NewsFeed
}
