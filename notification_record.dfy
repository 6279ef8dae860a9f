/** The notification record that `sendChannelRequestNotification` writes for each user:
    the object literal passed to `.add(...)`, built from the created `channel_requests`
    document and the `requestId` path parameter of the trigger. */
module NotificationRecord {

  datatype Option<T> = None | Some(value: T)

  /** The fields of a `channel_requests/{requestId}` document that the handler reads. */
  datatype ChannelRequest = ChannelRequest(
    channelId: string,
    channelName: string,
    userName: string,
    requestText: string)

  /** `FieldValue.serverTimestamp()`: a sentinel the store replaces with its own clock. */
  datatype Timestamp = ServerTimestamp

  /** A document of `users/{uid}/notifications`; `kind` is the source's `type` field. */
  datatype Notification = Notification(
    title: string,
    body: string,
    timestamp: Timestamp,
    read: bool,
    kind: string,
    channelId: string,
    requestId: string)

  const TitlePrefix: string := "New Request in "
  const Separator: string := " is looking for: "
  const Ellipsis: string := "..."
  const ExcerptLength: nat := 100
  const ChannelRequestKind: string := "channel_request"

  function Min(a: int, b: int): int { if a <= b then a else b }

  /** The index an argument of JavaScript's `String.prototype.substring` stands for:
      negative arguments count as 0, arguments past the end as the length. */
  function ClampIndex(x: int, length: nat): (r: nat)
    ensures r <= length
  {
    if x < 0 then 0 else if x > length then length else x
  }

  /** JavaScript's `s.substring(start, end)`: both indices are clamped to the string and
      swapped when `start` is the larger one; it never fails. */
  function Substring(s: string, start: int, end: int): (r: string)
    ensures |r| <= |s|
  {
    var a, b := ClampIndex(start, |s|), ClampIndex(end, |s|);
    if a <= b then s[a..b] else s[b..a]
  }

  /** What a caller of `substring` can rely on: the order of the two indices does not
      matter, a negative index reads as 0, an index past the end reads as the length, and
      two indices within the string select the characters between them. */
  lemma SubstringClamps(s: string, start: int, end: int)
    ensures Substring(s, start, end) == Substring(s, end, start)
    ensures start < 0 ==> Substring(s, start, end) == Substring(s, 0, end)
    ensures |s| < end ==> Substring(s, start, end) == Substring(s, start, |s|)
    ensures 0 <= start <= end <= |s| ==> Substring(s, start, end) == s[start..end]
  {
  }

  /** `substring` from index 0 keeps the first `n` characters, or the whole string when it
      is shorter. */
  lemma SubstringFromStart(s: string, n: int)
    requires 0 <= n
    ensures Substring(s, 0, n) == s[..Min(n, |s|)]
  {
  }

  /** `requestText.substring(0, 100)`: the part of the request text quoted in the body. */
  function Excerpt(text: string): (r: string)
    ensures |r| == Min(ExcerptLength, |text|)
    ensures r <= text
    ensures |text| <= ExcerptLength ==> r == text
  {
    SubstringFromStart(text, ExcerptLength);
    Substring(text, 0, ExcerptLength)
  }

  /** The `title` template. */
  function Title(channelName: string): string
  {
    TitlePrefix + channelName
  }

  /** The `body` template. */
  function Body(userName: string, requestText: string): string
  {
    userName + Separator + Excerpt(requestText) + Ellipsis
  }

  /** Reads the channel name back out of a title; `None` if it is not a title. */
  function ChannelNameOf(title: string): (r: Option<string>)
    ensures r.Some? ==> Title(r.value) == title
  {
    if TitlePrefix <= title then Some(title[|TitlePrefix|..]) else None
  }

  /** Reads the quoted request text back out of a body written for `userName`;
      `None` if the body does not have the shape of the template. */
  function ExcerptOf(body: string, userName: string): (r: Option<string>)
    ensures r.Some? ==> userName + Separator + r.value + Ellipsis == body
  {
    var head := userName + Separator;
    if |head| + |Ellipsis| <= |body| && head <= body && body[|body| - |Ellipsis|..] == Ellipsis
    then
      var excerpt := body[|head|..|body| - |Ellipsis|];
      assert body == head + excerpt + Ellipsis;
      Some(excerpt)
    else None
  }

  /** A title determines its channel name and nothing else produces it. */
  lemma TitleRoundTrip(title: string, channelName: string)
    ensures ChannelNameOf(title) == Some(channelName) <==> title == Title(channelName)
  {
  }

  /** The quoted text of a body is exactly the request text cut to 100 characters,
      and a body with the template's shape is the template applied to its quoted text. */
  lemma BodyRoundTrip(body: string, userName: string, excerpt: string)
    ensures ExcerptOf(body, userName) == Some(excerpt) <==> body == userName + Separator + excerpt + Ellipsis
  {
  }

  /** The body quotes the request text whole when it has at most 100 characters and its
      first 100 characters otherwise, so its length is bounded by the user name's. */
  lemma BodyQuotesRequest(userName: string, requestText: string)
    ensures ExcerptOf(Body(userName, requestText), userName) == Some(Excerpt(requestText))
    ensures |requestText| <= ExcerptLength ==> ExcerptOf(Body(userName, requestText), userName) == Some(requestText)
    ensures ExcerptLength < |requestText| ==> ExcerptOf(Body(userName, requestText), userName) == Some(requestText[..ExcerptLength])
    ensures |Body(userName, requestText)| == |userName| + |Separator| + Min(ExcerptLength, |requestText|) + |Ellipsis|
    ensures |Body(userName, requestText)| <= |userName| + 17 + 100 + 3
  {
  }

  /** The object literal written to `users/{uid}/notifications` for the request `requestId`. */
  function BuildNotification(request: ChannelRequest, requestId: string): (r: Notification)
    ensures ChannelNameOf(r.title) == Some(request.channelName)
    ensures ExcerptOf(r.body, request.userName) == Some(Excerpt(request.requestText))
    ensures |r.body| <= |request.userName| + |Separator| + ExcerptLength + |Ellipsis|
    ensures r.timestamp == ServerTimestamp
    ensures !r.read && r.kind == ChannelRequestKind
    ensures r.channelId == request.channelId && r.requestId == requestId
  {
    TitleRoundTrip(Title(request.channelName), request.channelName);
    BodyQuotesRequest(request.userName, request.requestText);
    Notification(
      Title(request.channelName),
      Body(request.userName, request.requestText),
      ServerTimestamp,
      false,
      ChannelRequestKind,
      request.channelId,
      requestId)
  }
}
