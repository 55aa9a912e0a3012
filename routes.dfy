/** The four screens of the app's route table and the path each is reached by.
    Navigation targets in the model are `Route` values; `Path` gives the string
    passed to `navigate`, and `PathInjective` shows no two screens share one. */
module Routes {

  datatype Route = Landing | Intro | Prompt(slug: string) | Finish

  const PromptPrefix: string := "/prompt/"

  function Path(r: Route): string
  {
    match r
    case Landing => "/"
    case Intro => "/intro"
    case Prompt(slug) => PromptPrefix + slug
    case Finish => "/finish"
  }

  /** Distinct screens are reached by distinct paths. */
  lemma PathInjective(a: Route, b: Route)
    requires Path(a) == Path(b)
    ensures a == b
  {
    if a.Prompt? {
      assert Path(a)[1] == 'p' && |Path(a)| >= 8;
      if b.Prompt? {
        assert a.slug == Path(a)[8..] == Path(b)[8..] == b.slug;
      }
    }
  }
}
