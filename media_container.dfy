/** The editor's media container: the media half of a media-and-text block,
    shown either as the chosen image, the chosen video, or a placeholder that
    invites the user to pick a file. */
module MediaContainer {
  import opened JsValue

  /** The file types both the toolbar button and the placeholder offer. */
  const AcceptedTypes := "image/*,video/*"
  const PlaceholderClass := "block-library-half-media__media-placeholder"

  /** The props the container reads (the select callback is left out). */
  datatype Props = Props(
    mediaAlt: Option<string>,
    mediaId: Option<int>,
    mediaType: Option<string>,
    mediaUrl: Option<string>)

  /** The "Edit Media" toolbar button: it reopens the media library on the
      current media id, offering images and videos. */
  datatype EditButton = EditButton(value: Option<int>, allowedTypes: string)

  datatype View =
    | ImageView(toolbar: EditButton, src: Option<string>, alt: Option<string>)
    | VideoView(toolbar: EditButton, src: Option<string>)
    | Placeholder(className: string, accept: string)
  {
    /** The image and video views carry the edit toolbar; the placeholder
        does not. */
    function Toolbar(): Option<EditButton> {
      if Placeholder? then None else Some(toolbar)
    }
  }

  function RenderToolbarEditButton(props: Props): EditButton {
    EditButton(props.mediaId, AcceptedTypes)
  }

  function RenderImage(props: Props): View {
    ImageView(RenderToolbarEditButton(props), props.mediaUrl, props.mediaAlt)
  }

  function RenderVideo(props: Props): View {
    VideoView(RenderToolbarEditButton(props), props.mediaUrl)
  }

  function RenderPlaceholder(): View {
    Placeholder(PlaceholderClass, AcceptedTypes)
  }

  /** render: an image or a video only when both the type and the URL are set
      and the type is one of the two known ones; the placeholder otherwise. */
  function Render(props: Props): (view: View)
    ensures view.ImageView? <==> props.mediaType == Some("image") && Present(props.mediaUrl)
    ensures view.VideoView? <==> props.mediaType == Some("video") && Present(props.mediaUrl)
    ensures view.Placeholder? <==>
      !Present(props.mediaUrl) || props.mediaType !in {Some("image"), Some("video")}
    ensures view.ImageView? ==> view.src == props.mediaUrl && view.alt == props.mediaAlt
    ensures view.VideoView? ==> view.src == props.mediaUrl
    ensures view.Placeholder? ==> view == Placeholder(PlaceholderClass, AcceptedTypes)
    ensures view.Toolbar().Some? <==> !view.Placeholder?
    ensures view.Toolbar().Some? ==> view.Toolbar().value == EditButton(props.mediaId, AcceptedTypes)
  {
    if Present(props.mediaType) && Present(props.mediaUrl) then
      if props.mediaType.value == "image" then RenderImage(props)
      else if props.mediaType.value == "video" then RenderVideo(props)
      else RenderPlaceholder()
    else RenderPlaceholder()
  }

  /** A type the container does not know falls back to the placeholder, even
      with a URL, and an absent or empty type or URL always does. */
  lemma PlaceholderCases(props: Props)
    ensures !Present(props.mediaType) ==> Render(props).Placeholder?
    ensures !Present(props.mediaUrl) ==> Render(props).Placeholder?
    ensures props.mediaType.Some? && props.mediaType.value !in {"image", "video"} ==>
      Render(props) == Placeholder(PlaceholderClass, AcceptedTypes)
  {
  }
}
