/** The half-media layout block in edit mode: its attribute set, the updates
    its event handlers pass to `setAttributes`, which resize handle is
    offered, and what the edit view shows. */
module HalfMedia {
  import opened JsValue
  import ClassNames
  import MediaContainer

  const DefaultWidth := 300
  /** The positions the alignment toolbar offers for the media. */
  const MediaPositions: seq<string> := ["left", "right"]
  const RightClass := "has-media-on-the-right"
  const EditRootClass := "wp-block-half-media"
  const ResizeMinWidth := 100

  /** The block's attributes. `align` is not in the schema: it is added by the
      block's alignment support. */
  datatype Attributes = Attributes(
    width: int,
    backgroundColor: Option<string>,
    customBackgroundColor: Option<string>,
    mediaAlt: Option<string>,
    mediaPosition: Option<string>,
    mediaId: Option<int>,
    mediaUrl: Option<string>,
    mediaType: Option<string>,
    align: Option<string>)

  /** A fresh attribute set: the schema's defaults, everything else unset. */
  function Defaults(): (d: Attributes)
    ensures d.width == 300 && d.mediaPosition == Some("left") && d.mediaAlt == Some("")
    ensures d.backgroundColor == None && d.customBackgroundColor == None
    ensures d.mediaId == None && d.mediaUrl == None && d.mediaType == None && d.align == None
  {
    Attributes(
      width := DefaultWidth,
      backgroundColor := None,
      customBackgroundColor := None,
      mediaAlt := Some(""),
      mediaPosition := Some("left"),
      mediaId := None,
      mediaUrl := None,
      mediaType := None,
      align := None)
  }

  // ---------------------------------------------------------------------
  // Partial updates and their merge

  datatype Key =
    | Width | BackgroundColor | CustomBackgroundColor | MediaAlt
    | MediaPosition | MediaId | MediaUrl | MediaType | Align

  /** One `key: value` entry of an object passed to `setAttributes`. */
  datatype Assignment =
    | SetWidth(newWidth: int)
    | SetMediaAlt(newAlt: Option<string>)
    | SetMediaId(newId: Option<int>)
    | SetMediaType(newType: Option<string>)
    | SetMediaUrl(newUrl: Option<string>)
    | SetMediaPosition(newPosition: Option<string>)
    | SetAlign(newAlign: Option<string>)

  /** The object a handler passes to `setAttributes`, entry by entry. */
  type Patch = seq<Assignment>

  function KeyOf(a: Assignment): Key {
    match a
    case SetWidth(_) => Width
    case SetMediaAlt(_) => MediaAlt
    case SetMediaId(_) => MediaId
    case SetMediaType(_) => MediaType
    case SetMediaUrl(_) => MediaUrl
    case SetMediaPosition(_) => MediaPosition
    case SetAlign(_) => Align
  }

  function Keys(patch: Patch): set<Key> {
    set i | 0 <= i < |patch| :: KeyOf(patch[i])
  }

  lemma KeysOfOne(a: Assignment)
    ensures Keys([a]) == {KeyOf(a)}
  {
    assert [a][0] == a;
  }

  /** The two attribute sets hold the same value under `k`. */
  predicate Agree(a: Attributes, b: Attributes, k: Key) {
    match k
    case Width => a.width == b.width
    case BackgroundColor => a.backgroundColor == b.backgroundColor
    case CustomBackgroundColor => a.customBackgroundColor == b.customBackgroundColor
    case MediaAlt => a.mediaAlt == b.mediaAlt
    case MediaPosition => a.mediaPosition == b.mediaPosition
    case MediaId => a.mediaId == b.mediaId
    case MediaUrl => a.mediaUrl == b.mediaUrl
    case MediaType => a.mediaType == b.mediaType
    case Align => a.align == b.align
  }

  function Assign(attrs: Attributes, a: Assignment): Attributes {
    match a
    case SetWidth(w) => attrs.(width := w)
    case SetMediaAlt(alt) => attrs.(mediaAlt := alt)
    case SetMediaId(id) => attrs.(mediaId := id)
    case SetMediaType(t) => attrs.(mediaType := t)
    case SetMediaUrl(url) => attrs.(mediaUrl := url)
    case SetMediaPosition(p) => attrs.(mediaPosition := p)
    case SetAlign(al) => attrs.(align := al)
  }

  /** `setAttributes`: a shallow merge of the patch into the attributes. */
  function Merge(attrs: Attributes, patch: Patch): Attributes
    decreases |patch|
  {
    if patch == [] then attrs else Merge(Assign(attrs, patch[0]), patch[1..])
  }

  /** A merge leaves every attribute the patch does not name as it was. */
  lemma {:induction false} MergeLeavesOtherKeys(attrs: Attributes, patch: Patch, k: Key)
    requires k !in Keys(patch)
    ensures Agree(attrs, Merge(attrs, patch), k)
    decreases |patch|
  {
    if patch != [] {
      assert KeyOf(patch[0]) in Keys(patch);
      var tail := patch[1..];
      assert Keys(tail) <= Keys(patch) by {
        forall key | key in Keys(tail) ensures key in Keys(patch) {
          var i :| 0 <= i < |tail| && KeyOf(tail[i]) == key;
          assert tail[i] == patch[i + 1];
        }
      }
      MergeLeavesOtherKeys(Assign(attrs, patch[0]), tail, k);
    }
  }

  // ---------------------------------------------------------------------
  // Edit-mode handlers

  /** componentWillMount: with wide alignment enabled in the editor, a block
      without an alignment becomes wide. */
  function MountPatch(attrs: Attributes, wideControlsEnabled: bool): (patch: Patch)
    ensures Keys(patch) <= {Align} && |patch| <= 1
    ensures patch != [] <==> wideControlsEnabled && attrs.align in {None, Some("")}
    ensures patch != [] ==> Merge(attrs, patch).align == Some("wide")
  {
    if wideControlsEnabled && !Present(attrs.align) then [SetAlign(Some("wide"))] else []
  }

  lemma MountEffect(attrs: Attributes, wideControlsEnabled: bool)
    ensures Merge(attrs, MountPatch(attrs, wideControlsEnabled)) ==
      if wideControlsEnabled && attrs.align in {None, Some("")}
      then attrs.(align := Some("wide"))
      else attrs
  {
  }

  /** Mounting a second time changes nothing. */
  lemma MountIdempotent(attrs: Attributes, wideControlsEnabled: bool)
    ensures var mounted := Merge(attrs, MountPatch(attrs, wideControlsEnabled));
      Merge(mounted, MountPatch(mounted, wideControlsEnabled)) == mounted
  {
  }

  /** What the media library hands to the select callback. */
  datatype Media = Media(alt: Option<string>, id: Option<int>, mediaType: Option<string>, url: Option<string>)

  /** onSelectMedia: the chosen media's alt text, id, type and URL. */
  function SelectMediaPatch(media: Media): (patch: Patch)
    ensures Keys(patch) == {MediaAlt, MediaId, MediaType, MediaUrl}
  {
    var patch := [SetMediaAlt(media.alt), SetMediaId(media.id), SetMediaType(media.mediaType), SetMediaUrl(media.url)];
    assert KeyOf(patch[0]) == MediaAlt && KeyOf(patch[1]) == MediaId;
    assert KeyOf(patch[2]) == MediaType && KeyOf(patch[3]) == MediaUrl;
    patch
  }

  /** Selecting media sets exactly the four media attributes, to the chosen
      media's values; width, position, colours and alignment are untouched. */
  lemma SelectMediaEffect(attrs: Attributes, media: Media)
    ensures Keys(SelectMediaPatch(media)) == {MediaAlt, MediaId, MediaType, MediaUrl}
    ensures Merge(attrs, SelectMediaPatch(media)) == attrs.(
      mediaAlt := media.alt, mediaId := media.id,
      mediaType := media.mediaType, mediaUrl := media.url)
  {
    var patch := SelectMediaPatch(media);
    var a1 := Assign(attrs, patch[0]);
    var a2 := Assign(a1, patch[1]);
    var a3 := Assign(a2, patch[2]);
    var a4 := Assign(a3, patch[3]);
    assert Merge(attrs, patch) == Merge(a1, patch[1..]);
    assert Merge(a1, patch[1..]) == Merge(a2, patch[2..]);
    assert Merge(a2, patch[2..]) == Merge(a3, patch[3..]);
    assert Merge(a3, patch[3..]) == Merge(a4, []);
  }

  /** onResizeStop: the width at the start of the drag plus the horizontal
      delta. Widths are unbounded integers here, so `parseInt` of the sum is
      the sum itself; in JavaScript that holds only while the sum is an
      integer below 1e21 in magnitude (larger ones print in exponent form)
      and exact (below 2^53). */
  function ResizePatch(attrs: Attributes, delta: int): (patch: Patch)
    ensures Keys(patch) == {Width}
    ensures Merge(attrs, patch).width - attrs.width == delta
  {
    KeysOfOne(SetWidth(attrs.width + delta));
    [SetWidth(attrs.width + delta)]
  }

  /** A resize changes the width by the delta and nothing else. */
  lemma ResizeEffect(attrs: Attributes, delta: int)
    ensures Merge(attrs, ResizePatch(attrs, delta)).width == attrs.width + delta
    ensures forall k :: k != Width ==> Agree(attrs, Merge(attrs, ResizePatch(attrs, delta)), k)
  {
  }

  /** Two drags add up, and a drag back by the same amount restores the
      attributes. */
  lemma ResizeComposes(attrs: Attributes, d1: int, d2: int)
    ensures var once := Merge(attrs, ResizePatch(attrs, d1));
      Merge(once, ResizePatch(once, d2)) == Merge(attrs, ResizePatch(attrs, d1 + d2))
    ensures var once := Merge(attrs, ResizePatch(attrs, d1));
      Merge(once, ResizePatch(once, -d1)) == attrs
  {
  }

  /** The alignment toolbar's onChange: the new position, or none when the
      active position is clicked again. */
  function ChangePositionPatch(position: Option<string>): (patch: Patch)
    ensures Keys(patch) == {MediaPosition}
    ensures forall attrs :: Merge(attrs, patch).mediaPosition == position
  {
    KeysOfOne(SetMediaPosition(position));
    [SetMediaPosition(position)]
  }

  // ---------------------------------------------------------------------
  // What the edit view shows

  /** The `enable` map of the resizable box: which edges carry a handle. */
  datatype Handles = Handles(left: bool, right: bool)

  /** enablePositions: the handle sits on the edge away from the media. */
  function EnablePositions(mediaPosition: Option<string>): (h: Handles)
    ensures h.right <==> mediaPosition == Some("left")
    ensures h.left <==> mediaPosition == Some("right")
    ensures !(h.left && h.right)
    ensures h.left != h.right <==> mediaPosition.Some? && mediaPosition.value in MediaPositions
  {
    Handles(left := mediaPosition == Some("right"), right := mediaPosition == Some("left"))
  }

  /** The backgroundColor prop that the colour support hands to the edit
      view: the named colour's class, if any, and the colour value. */
  datatype ColorProp = ColorProp(cls: Option<string>, value: Option<string>)

  datatype Resizer = Resizer(width: int, minWidth: int, enable: Handles)

  datatype EditView = EditView(
    classes: seq<string>,
    background: Option<string>,
    resizer: Resizer,
    media: MediaContainer.View)

  /** The props the media area spreads into the container. */
  function ContainerProps(attrs: Attributes): MediaContainer.Props {
    MediaContainer.Props(attrs.mediaAlt, attrs.mediaId, attrs.mediaType, attrs.mediaUrl)
  }

  /** `classnames( 'wp-block-half-media', { … } )`: the string argument,
      then the object literal. */
  function EditClasses(attrs: Attributes, backgroundColor: ColorProp): seq<string> {
    ClassNames.ClassList([Property(EditRootClass, Str(EditRootClass))]) +
    ClassNames.ClassList([
      Property(RightClass, Bool(attrs.mediaPosition == Some("right"))),
      Property(PropertyKey(backgroundColor.cls), OfString(backgroundColor.cls))])
  }

  /** The edit view: the container's classes and background, the resizable
      media area and the media container inside it. */
  function RenderEdit(attrs: Attributes, backgroundColor: ColorProp): (view: EditView)
    ensures view.background == backgroundColor.value
    ensures view.resizer.width == attrs.width
    ensures view.resizer.enable.right <==> attrs.mediaPosition == Some("left")
    ensures view.resizer.enable.left <==> attrs.mediaPosition == Some("right")
    ensures view.media.ImageView? <==> attrs.mediaType == Some("image") && Present(attrs.mediaUrl)
    ensures view.media.VideoView? <==> attrs.mediaType == Some("video") && Present(attrs.mediaUrl)
  {
    EditView(
      EditClasses(attrs, backgroundColor),
      backgroundColor.value,
      Resizer(attrs.width, ResizeMinWidth, EnablePositions(attrs.mediaPosition)),
      MediaContainer.Render(ContainerProps(attrs)))
  }

  /** Moving the media changes only the position, and the resize handle
      follows it to the other edge; clearing the position removes both. */
  lemma ChangePositionEffect(attrs: Attributes, position: Option<string>, backgroundColor: ColorProp)
    ensures Merge(attrs, ChangePositionPatch(position)) == attrs.(mediaPosition := position)
    ensures RenderEdit(Merge(attrs, ChangePositionPatch(position)), backgroundColor).resizer.enable ==
      if position == Some("left") then Handles(left := false, right := true)
      else if position == Some("right") then Handles(left := true, right := false)
      else Handles(left := false, right := false)
  {
  }

  /** The edit classes are the block's own class, the right-hand class when
      the media is on the right, and the colour class when there is one. A
      colour class spelled like the right-hand class would stand in for it. */
  lemma EditClassesExactly(attrs: Attributes, backgroundColor: ColorProp, c: string)
    ensures c in RenderEdit(attrs, backgroundColor).classes <==>
      c == EditRootClass ||
      (c == RightClass && attrs.mediaPosition == Some("right")) ||
      (backgroundColor.cls == Some(c) && c != "")
  {
    var first := [Property(EditRootClass, Str(EditRootClass))];
    var props := [
      Property(RightClass, Bool(attrs.mediaPosition == Some("right"))),
      Property(PropertyKey(backgroundColor.cls), OfString(backgroundColor.cls))];
    ClassNames.ClassListMember(first, c);
    ClassNames.ClassListMember(props, c);
    assert first[1..] == [] && props[1..][1..] == [];
    var last := if c == props[1].key then Some(props[1].value) else None;
    assert ClassNames.Lookup(props[1..], c) == last;
    assert ClassNames.Lookup(props, c) ==
      if last.Some? then last else if c == RightClass then Some(props[0].value) else None;
  }

  // ---------------------------------------------------------------------
  // The block instance whose attributes the handlers update

  /** A block instance in the editor: the attribute record the host keeps,
      and the handlers of the edit component acting on it. */
  class Block {
    var attributes: Attributes

    /** A block is inserted with the schema's defaults. */
    constructor ()
      ensures attributes == Defaults()
    {
      attributes := Defaults();
    }

    /** The host's setAttributes: merge the patch into the attributes. */
    method SetAttributes(patch: Patch)
      modifies this
      ensures attributes == Merge(old(attributes), patch)
    {
      attributes := Merge(attributes, patch);
    }

    method ComponentWillMount(wideControlsEnabled: bool)
      modifies this
      ensures wideControlsEnabled && old(attributes).align in {None, Some("")} ==>
        attributes == old(attributes).(align := Some("wide"))
      ensures !(wideControlsEnabled && old(attributes).align in {None, Some("")}) ==>
        attributes == old(attributes)
    {
      MountEffect(attributes, wideControlsEnabled);
      SetAttributes(MountPatch(attributes, wideControlsEnabled));
    }

    method OnSelectMedia(media: Media)
      modifies this
      ensures attributes == old(attributes).(
        mediaAlt := media.alt, mediaId := media.id,
        mediaType := media.mediaType, mediaUrl := media.url)
    {
      SelectMediaEffect(attributes, media);
      SetAttributes(SelectMediaPatch(media));
    }

    method OnResizeStop(delta: int)
      modifies this
      ensures attributes == old(attributes).(width := old(attributes).width + delta)
    {
      SetAttributes(ResizePatch(attributes, delta));
    }

    method OnChangeMediaPosition(position: Option<string>)
      modifies this
      ensures attributes == old(attributes).(mediaPosition := position)
    {
      SetAttributes(ChangePositionPatch(position));
    }
  }
}
