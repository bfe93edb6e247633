/** The editor's `getColorClass( colorContextName, colorSlug )`, which the
    block imports: no class when either argument is missing or empty,
    otherwise the class "has-<slug>-<context>". */
module Colors {
  import opened JsValue

  /** The colour context the half-media block asks for. */
  const BackgroundContext := "background-color"

  function GetColorClass(context: string, slug: Option<string>): (cls: Option<string>)
    ensures cls.Some? <==> context != "" && Present(slug)
    ensures cls.Some? ==> Present(cls) && EndsWith(cls.value, "-" + context)
  {
    if context == "" || !Present(slug) then None
    else
      var c := "has-" + slug.value + "-" + context;
      assert c[|c| - |context| - 1..] == "-" + context;
      Some(c)
  }

  predicate EndsWith(s: string, suffix: string) {
    |suffix| <= |s| && s[|s| - |suffix|..] == suffix
  }

  /** A background colour class always ends in "-background-color". */
  lemma BackgroundClassShape(slug: Option<string>, c: string)
    requires GetColorClass(BackgroundContext, slug) == Some(c)
    ensures c != "" && c != "has-media-on-the-right"
  {
    var tail := c[|c| - 17..];
    assert tail == "-background-color";
    assert c[|c| - 16] == 'b';
    assert "has-media-on-the-right"[6] == 'd';
  }
}
