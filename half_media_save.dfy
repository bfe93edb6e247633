/** The half-media block's saved markup: a container with conditional classes
    and an inline background colour, a figure of the block's width holding an
    image, a video or nothing, and the content wrapper for the inner blocks. */
module HalfMediaSave {
  import opened JsValue
  import opened HalfMedia
  import ClassNames
  import Colors
  import MediaContainer

  const FigureClass := "wp-block-half-media__media"
  const ContentClass := "wp-block-half-media__content"

  /** What the figure holds. */
  datatype MediaElement =
    | Img(src: Option<string>, alt: Option<string>)
    | Video(src: Option<string>)
    | NoMedia

  datatype Figure = Figure(className: string, width: int, media: MediaElement)

  datatype SavedMarkup = SavedMarkup(
    classes: seq<string>,
    background: Option<string>,
    figure: Figure,
    contentClass: string)

  /** backgroundClass: the class of the named background colour, if any. */
  function BackgroundClass(attrs: Attributes): Option<string> {
    Colors.GetColorClass(Colors.BackgroundContext, attrs.backgroundColor)
  }

  // ---------------------------------------------------------------------
  // Classes

  /** A named background colour always yields a class, and never one that
      reads like the right-hand class. */
  lemma BackgroundClassIsColorClass(attrs: Attributes)
    ensures BackgroundClass(attrs).Some? <==> Present(attrs.backgroundColor)
    ensures BackgroundClass(attrs) != Some(RightClass)
  {
    if BackgroundClass(attrs).Some? {
      Colors.BackgroundClassShape(attrs.backgroundColor, BackgroundClass(attrs).value);
    }
  }

  /** The container's classes as the source computes them: the colour class
      key is read before `backgroundClass` is declared, so (once `const` is
      compiled to `var`) it is undefined there and the class is never kept. */
  function SavedClassesAsWritten(attrs: Attributes): (classes: seq<string>)
    ensures classes == if attrs.mediaPosition == Some("right") then [RightClass] else []
  {
    var backgroundClassSoFar: Option<string> := None;
    var props := [
      Property(RightClass, Bool(attrs.mediaPosition == Some("right"))),
      Property(PropertyKey(backgroundClassSoFar), OfString(backgroundClassSoFar))];
    assert props[1..][1..] == [];
    assert ClassNames.Lookup(props[1..], "undefined") == Some(Undefined);
    assert ClassNames.Keep(props[1..], {RightClass}) == [];
    assert ClassNames.Lookup(props, RightClass) == Some(props[0].value);
    assert {} + {RightClass} == {RightClass};
    assert ClassNames.Keep(props, {}) ==
      (if Truthy(props[0].value) then [RightClass] else []) + ClassNames.Keep(props[1..], {RightClass});
    ClassNames.ClassList(props)
  }

  /** The container's classes with `backgroundClass` computed first. */
  function SavedClasses(attrs: Attributes): seq<string> {
    var backgroundClass := BackgroundClass(attrs);
    ClassNames.ClassList([
      Property(RightClass, Bool(attrs.mediaPosition == Some("right"))),
      Property(PropertyKey(backgroundClass), OfString(backgroundClass))])
  }

  /** As written, the only class the saved container can get is the
      right-hand one. */
  lemma SavedClassesAsWrittenExactly(attrs: Attributes, c: string)
    ensures c in SavedClassesAsWritten(attrs) <==> c == RightClass && attrs.mediaPosition == Some("right")
  {
    var props := [
      Property(RightClass, Bool(attrs.mediaPosition == Some("right"))),
      Property("undefined", Undefined)];
    ClassNames.ClassListMember(props, c);
    if c == RightClass && attrs.mediaPosition == Some("right") {
      assert props[0].key == c && Truthy(props[0].value);
    }
  }

  /** A block with a named background colour loses its colour class in the
      saved markup as written. */
  lemma ColorClassLostAsWritten()
    ensures var attrs := Defaults().(backgroundColor := Some("red"));
      BackgroundClass(attrs) == Some("has-red-background-color") &&
      "has-red-background-color" !in SavedClassesAsWritten(attrs) &&
      "has-red-background-color" in SavedClasses(attrs)
  {
    var attrs := Defaults().(backgroundColor := Some("red"));
    assert "has-" + "red" + "-" + "background-color" == "has-red-background-color";
    SavedClassesAsWrittenExactly(attrs, "has-red-background-color");
    SavedClassesExactly(attrs, "has-red-background-color");
  }

  /** The saved classes are the right-hand class exactly when the media is on
      the right, and the named colour's class exactly when there is one. */
  lemma SavedClassesExactly(attrs: Attributes, c: string)
    ensures c in SavedClasses(attrs) <==>
      (c == RightClass && attrs.mediaPosition == Some("right")) || BackgroundClass(attrs) == Some(c)
  {
    var backgroundClass := BackgroundClass(attrs);
    var props := [
      Property(RightClass, Bool(attrs.mediaPosition == Some("right"))),
      Property(PropertyKey(backgroundClass), OfString(backgroundClass))];
    ClassNames.ClassListMember(props, c);
    BackgroundClassIsColorClass(attrs);
    if c == RightClass && attrs.mediaPosition == Some("right") {
      assert props[0].key == c && Truthy(props[0].value);
    }
    if backgroundClass == Some(c) {
      assert props[1].key == c && Truthy(props[1].value);
    }
  }

  // ---------------------------------------------------------------------
  // Background colour

  /** The inline background colour: the custom colour, unless a named colour
      gives the block a class, in which case there is no inline colour. */
  function SavedBackground(attrs: Attributes): (background: Option<string>)
    ensures background == if Present(attrs.backgroundColor) then None else attrs.customBackgroundColor
  {
    if Present(BackgroundClass(attrs)) then None else attrs.customBackgroundColor
  }

  // ---------------------------------------------------------------------
  // Media

  /** The names every object inherits from Object.prototype. */
  const ObjectPrototypeNames: set<string> := {
    "constructor", "hasOwnProperty", "isPrototypeOf", "propertyIsEnumerable",
    "toLocaleString", "toString", "valueOf", "__proto__",
    "__defineGetter__", "__defineSetter__", "__lookupGetter__", "__lookupSetter__"}

  /** What the figure's child expression evaluates to. */
  datatype Child = Element(e: MediaElement) | Plain(v: Value)
  datatype Evaluation = Returns(child: Child) | Throws

  /** `( mediaTypeRenders[ mediaType ] || noop )()` as written: the lookup
      also finds what the object inherits, and the call has no `this`. */
  function SavedMediaAsWritten(attrs: Attributes): (result: Evaluation)
    ensures result.Returns? && result.child.Element? <==> attrs.mediaType in {Some("image"), Some("video")}
    ensures result.Throws? <==>
      PropertyKey(attrs.mediaType) in ObjectPrototypeNames - {"toString", "isPrototypeOf", "constructor"}
  {
    var key := PropertyKey(attrs.mediaType);
    if key == "image" then Returns(Element(Img(attrs.mediaUrl, attrs.mediaAlt)))
    else if key == "video" then Returns(Element(Video(attrs.mediaUrl)))
    else if key !in ObjectPrototypeNames then Returns(Plain(Undefined))  // noop
    else if key == "toString" then Returns(Plain(Str("[object Undefined]")))
    else if key == "isPrototypeOf" then Returns(Plain(Bool(false)))
    else if key == "constructor" then Returns(Plain(Obj([])))
    // every other inherited method needs an object as `this`, and
    // Object.prototype itself is not callable
    else Throws
  }

  /** The figure's content, looking up the own render functions only. */
  function SavedMedia(attrs: Attributes): (media: MediaElement)
    ensures media.Img? <==> attrs.mediaType == Some("image")
    ensures media.Video? <==> attrs.mediaType == Some("video")
    ensures media.Img? ==> media.src == attrs.mediaUrl && media.alt == attrs.mediaAlt
    ensures media.Video? ==> media.src == attrs.mediaUrl
  {
    var key := PropertyKey(attrs.mediaType);
    if key == "image" then Img(attrs.mediaUrl, attrs.mediaAlt)
    else if key == "video" then Video(attrs.mediaUrl)
    else NoMedia
  }

  /** The child that renders a media element; nothing renders as undefined. */
  function ChildOf(media: MediaElement): Child {
    if media.NoMedia? then Plain(Undefined) else Element(media)
  }

  /** For every media type that is not a name inherited from Object.prototype
      (an absent type included) the source's lookup agrees with the
      own-property one. */
  lemma SavedMediaAgrees(attrs: Attributes)
    requires PropertyKey(attrs.mediaType) !in ObjectPrototypeNames
    ensures SavedMediaAsWritten(attrs) == Returns(ChildOf(SavedMedia(attrs)))
  {
  }

  /** As written, the media type "toString" puts the text "[object Undefined]"
      in the figure and "valueOf" makes saving throw. */
  lemma InheritedMediaTypes()
    ensures var attrs := Defaults().(mediaType := Some("toString"), mediaUrl := Some("a.png"));
      SavedMediaAsWritten(attrs) == Returns(Plain(Str("[object Undefined]"))) &&
      SavedMedia(attrs) == NoMedia
    ensures var attrs := Defaults().(mediaType := Some("valueOf"));
      SavedMediaAsWritten(attrs) == Throws && SavedMedia(attrs) == NoMedia
  {
  }

  // ---------------------------------------------------------------------
  // The whole saved markup

  /** save: the container's classes and inline colour, and a figure that
      always carries the block's width. */
  function Save(attrs: Attributes): (markup: SavedMarkup)
    ensures markup.figure.width == attrs.width
    ensures RightClass in markup.classes <==> attrs.mediaPosition == Some("right")
    ensures forall c :: c in markup.classes <==>
      (c == RightClass && attrs.mediaPosition == Some("right")) || BackgroundClass(attrs) == Some(c)
    ensures BackgroundClass(attrs).Some? <==> Present(attrs.backgroundColor)
    ensures markup.background == if Present(attrs.backgroundColor) then None else attrs.customBackgroundColor
    ensures markup.figure.media.Img? <==> attrs.mediaType == Some("image")
    ensures markup.figure.media.Video? <==> attrs.mediaType == Some("video")
    ensures markup.figure.media.Img? ==>
      markup.figure.media.src == attrs.mediaUrl && markup.figure.media.alt == attrs.mediaAlt
    ensures markup.figure.media.Video? ==> markup.figure.media.src == attrs.mediaUrl
    ensures markup.figure.media.NoMedia? <==> attrs.mediaType !in {Some("image"), Some("video")}
  {
    forall c {
      SavedClassesExactly(attrs, c);
    }
    BackgroundClassIsColorClass(attrs);
    SavedMarkup(
      SavedClasses(attrs),
      SavedBackground(attrs),
      Figure(FigureClass, attrs.width, SavedMedia(attrs)),
      ContentClass)
  }

  // ---------------------------------------------------------------------
  // Edit view and saved markup side by side

  /** A freshly inserted block: the right-hand handle only, a placeholder in
      the editor, and an empty figure 300 wide with no classes or colour in
      the saved markup. */
  lemma FreshBlock(backgroundColor: ColorProp)
    ensures Defaults().width == 300 && Defaults().mediaPosition == Some("left")
    ensures Defaults().mediaAlt == Some("")
    ensures RenderEdit(Defaults(), backgroundColor).resizer.enable == Handles(left := false, right := true)
    ensures RenderEdit(Defaults(), backgroundColor).media.Placeholder?
    ensures Save(Defaults()) == SavedMarkup([], None, Figure(FigureClass, 300, NoMedia), ContentClass)
  {
    var props := [Property(RightClass, Bool(false)), Property("undefined", Undefined)];
    assert props[1..][1..] == [];
    assert ClassNames.Lookup(props, RightClass) == Some(Bool(false));
    assert ClassNames.Lookup(props[1..], "undefined") == Some(Undefined);
    assert ClassNames.Keep(props[1..], {RightClass}) == [];
    assert SavedClasses(Defaults()) == ClassNames.Keep(props, {});
  }

  /** The right-hand class appears in the edit view and in the saved markup
      together, exactly when the media is on the right, as long as the edit
      view's colour class is the one save computes. */
  lemma RightClassInBoth(attrs: Attributes, backgroundColor: ColorProp)
    requires backgroundColor.cls.Some? ==> backgroundColor.cls == BackgroundClass(attrs)
    ensures RightClass in RenderEdit(attrs, backgroundColor).classes <==> attrs.mediaPosition == Some("right")
    ensures RightClass in Save(attrs).classes <==> attrs.mediaPosition == Some("right")
  {
    EditClassesExactly(attrs, backgroundColor, RightClass);
    BackgroundClassIsColorClass(attrs);
  }

  /** With a media URL set, the editor shows an image (a video) exactly when
      the saved figure holds one, from the same URL. Without one the editor
      shows the placeholder while save still follows the media type. */
  lemma EditAndSaveShowSameMedia(attrs: Attributes, backgroundColor: ColorProp)
    ensures var shown := RenderEdit(attrs, backgroundColor).media;
      var saved := Save(attrs).figure.media;
      Present(attrs.mediaUrl) ==>
        (shown.ImageView? <==> saved.Img?) && (shown.VideoView? <==> saved.Video?) &&
        (shown.ImageView? ==> shown.src == saved.src && shown.alt == saved.alt) &&
        (shown.VideoView? ==> shown.src == saved.src)
    ensures !Present(attrs.mediaUrl) ==> RenderEdit(attrs, backgroundColor).media.Placeholder?
  {
  }

  /** Picking an image with a URL shows it in the editor with the edit
      toolbar, and saves it in the figure with its alt text. */
  lemma SelectedImageShownAndSaved(attrs: Attributes, media: Media, backgroundColor: ColorProp)
    requires media.mediaType == Some("image") && Present(media.url)
    ensures var after := Merge(attrs, SelectMediaPatch(media));
      RenderEdit(after, backgroundColor).media ==
        MediaContainer.ImageView(MediaContainer.EditButton(media.id, MediaContainer.AcceptedTypes), media.url, media.alt) &&
      Save(after).figure == Figure(FigureClass, attrs.width, Img(media.url, media.alt))
  {
    SelectMediaEffect(attrs, media);
  }
}
