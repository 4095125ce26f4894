/**
 * The chat-message payload that the quality-control tool sends to the
 * hosted vision model: role-tagged messages whose content is either plain
 * text or a list of parts, each part an image reference or a text.
 */
module Messages {
  import opened Wrappers

  datatype Role = System | User | Assistant

  /** One entry of a multi-part content list ("image_url" or "text"). */
  datatype Part = ImagePart(url: string) | TextPart(text: string)

  /** A message's content: a plain string or an ordered list of parts. */
  datatype Content = Text(text: string) | Parts(parts: seq<Part>)

  datatype Message = Message(role: Role, content: Content)

  /** Every image is embedded as a data URL with this fixed media-type header. */
  const DataUrlPrefix: string := "data:image/jpeg;base64,"

  /** The data URL for a base64-encoded image (the encoding itself is opaque here). */
  function ImageUrl(imageBase64: string): (url: string)
    ensures |url| == |DataUrlPrefix| + |imageBase64|
    ensures url[..|DataUrlPrefix|] == DataUrlPrefix
  {
    DataUrlPrefix + imageBase64
  }

  /** The base64 payload of a data URL, if the URL carries the fixed header. */
  function ImagePayload(url: string): (r: Option<string>)
    ensures r.Some? <==> |DataUrlPrefix| <= |url| && url[..|DataUrlPrefix|] == DataUrlPrefix
    ensures r.Some? ==> url == DataUrlPrefix + r.value
  {
    if |DataUrlPrefix| <= |url| && url[..|DataUrlPrefix|] == DataUrlPrefix
    then Some(url[|DataUrlPrefix|..])
    else None
  }

  /** The payload of an image URL is exactly the image that was embedded. */
  lemma ImageUrlRoundTrip(imageBase64: string)
    ensures ImagePayload(ImageUrl(imageBase64)) == Some(imageBase64)
  {
  }

  /** A URL with a payload is the image URL of that payload, so ImageUrl is onto them. */
  lemma ImagePayloadRoundTrip(url: string)
    requires ImagePayload(url).Some?
    ensures ImageUrl(ImagePayload(url).value) == url
  {
  }

  /** A few-shot example input: a user message whose only part is the image. */
  function ImageMessage(imageBase64: string): (m: Message)
    ensures m.role == User && m.content.Parts? && |m.content.parts| == 1 && m.content.parts[0].ImagePart?
    ensures ImagePayload(m.content.parts[0].url) == Some(imageBase64)
  {
    ImageUrlRoundTrip(imageBase64);
    Message(User, Parts([ImagePart(ImageUrl(imageBase64))]))
  }

  /** A few-shot example output: an assistant message whose content is the comment. */
  function AnswerMessage(comment: string): Message {
    Message(Assistant, Text(comment))
  }
}
