/** The creator page's `onSubmit`: how a validated draft becomes the
    multipart body of the creation request, and what the page does with
    the server's reply. */
module CreatorSubmit {
  import opened Wrappers
  import opened JsText
  import opened CreatorDraft

  /** The multipart field names the creation request uses. */
  datatype Key =
    | SenderNameKey | SenderLocationKey | RecipientNameKey | MessageKey
    | ThemeKey | TemplateTypeKey | TitleKey | MusicLinkKey | ImageUrlKey
    | ProtectionQuestionKey | ProtectionAnswerKey | ImageKey

  /** One appended multipart entry; for `ImageKey` the value names the file. */
  datatype Part = Part(key: Key, value: string)

  /** The value of the first entry under `k`, if any. */
  function Lookup(parts: seq<Part>, k: Key): (v: Option<string>)
    ensures v.Some? <==> exists i | 0 <= i < |parts| :: parts[i].key == k
  {
    if parts == [] then None
    else if parts[0].key == k then Some(parts[0].value)
    else
      assert forall i | 1 <= i < |parts| :: parts[1..][i - 1] == parts[i];
      Lookup(parts[1..], k)
  }

  /** No field name is appended twice. */
  predicate KeysDistinct(parts: seq<Part>)
  {
    forall i, j | 0 <= i < j < |parts| :: parts[i].key != parts[j].key
  }

  /** The draft fields the schema guarantees to be strings when the submit
      handler runs. */
  predicate Submittable(d: Draft)
  {
    d.senderName.Some? && d.receiverName.Some? && d.message.Some?
  }

  lemma SchemaValidIsSubmittable(d: Draft, isUrl: string -> bool)
    requires SchemaValid(d, isUrl)
    ensures Submittable(d)
  {
  }

  /** An optional field as it is sent: only a truthy (non-empty) string. */
  function SentIfTruthy(v: Option<string>): (r: Option<string>)
    ensures r.Some? <==> v.Some? && Truthy(v.value)
    ensures r.Some? ==> r == v
  {
    if v.Some? && v.value != "" then v else None
  }

  /** The value each field name should carry, stated per name: the required
      fields always, an optional text field exactly when it is non-empty, and
      the image when a file was chosen. */
  function Expected(d: Draft, k: Key): Option<string>
  {
    match k
    case SenderNameKey => d.senderName
    case RecipientNameKey => d.receiverName
    case MessageKey => d.message
    case ThemeKey => Some(ThemeId(d.theme))
    case TemplateTypeKey => Some(TemplateId(d.template))
    case SenderLocationKey => SentIfTruthy(d.senderLocation)
    case TitleKey => SentIfTruthy(d.title)
    case MusicLinkKey => SentIfTruthy(d.musicLink)
    case ImageUrlKey => SentIfTruthy(d.imageUrl)
    case ProtectionQuestionKey => SentIfTruthy(d.protectionQuestion)
    case ProtectionAnswerKey => SentIfTruthy(d.protectionAnswer)
    case ImageKey => ImageChoice(d)
  }

  /** The entry for an optional field: present only when `v` is set. */
  function Optional(k: Key, v: Option<string>): seq<Part>
  {
    if v.Some? then [Part(k, v.value)] else []
  }

  /** The image entry: the first chosen file, if any. */
  function ImageChoice(d: Draft): Option<string>
  {
    if |d.imageFile| > 0 then Some(d.imageFile[0]) else None
  }

  /** The first half of the body: the names, the location, the message and
      the two choices. */
  function Head(d: Draft): seq<Part>
    requires Submittable(d)
  {
    Optional(SenderNameKey, d.senderName)
    + (Optional(SenderLocationKey, SentIfTruthy(d.senderLocation))
    + (Optional(RecipientNameKey, d.receiverName)
    + (Optional(MessageKey, d.message)
    + (Optional(ThemeKey, Some(ThemeId(d.theme)))
    + Optional(TemplateTypeKey, Some(TemplateId(d.template)))))))
  }

  /** The second half of the body: the optional extras and the secret. */
  function Tail(d: Draft): seq<Part>
  {
    Optional(TitleKey, SentIfTruthy(d.title))
    + (Optional(MusicLinkKey, SentIfTruthy(d.musicLink))
    + (Optional(ImageUrlKey, SentIfTruthy(d.imageUrl))
    + TailEnd(d)))
  }

  /** The end of the body: the secret question and answer and the image. */
  function TailEnd(d: Draft): seq<Part>
  {
    Optional(ProtectionQuestionKey, SentIfTruthy(d.protectionQuestion))
    + (Optional(ProtectionAnswerKey, SentIfTruthy(d.protectionAnswer))
    + Optional(ImageKey, ImageChoice(d)))
  }

  /** The names the first half may carry. */
  predicate InHead(k: Key)
  {
    k in {SenderNameKey, SenderLocationKey, RecipientNameKey, MessageKey, ThemeKey, TemplateTypeKey}
  }

  /** The request body, built by appending the fields in the handler's order. */
  function Payload(d: Draft): (parts: seq<Part>)
    requires Submittable(d)
    ensures KeysDistinct(parts)
    ensures forall k :: Lookup(parts, k) == Expected(d, k)
  {
    forall k
      ensures Lookup(Head(d) + Tail(d), k) == Expected(d, k)
    {
      HeadLookup(d, k);
      TailLookup(d, k);
      LookupAppend(Head(d), Tail(d), k);
    }
    forall k
      ensures Count(Head(d) + Tail(d), k) <= 1
    {
      HeadLookup(d, k);
      TailLookup(d, k);
      CountAppend(Head(d), Tail(d), k);
    }
    DistinctWhenCountsAtMostOne(Head(d) + Tail(d));
    Head(d) + Tail(d)
  }

  lemma HeadLookup(d: Draft, k: Key)
    requires Submittable(d)
    ensures Lookup(Head(d), k) == if InHead(k) then Expected(d, k) else None
    ensures Count(Head(d), k) <= if InHead(k) then 1 else 0
  {
    var t := Optional(TemplateTypeKey, Some(TemplateId(d.template)));
    PrependLookup(TemplateTypeKey, Some(TemplateId(d.template)), [], k);
    assert t + [] == t;
    PrependLookup(ThemeKey, Some(ThemeId(d.theme)), t, k);
    var p := Optional(ThemeKey, Some(ThemeId(d.theme))) + t;
    PrependLookup(MessageKey, d.message, p, k);
    p := Optional(MessageKey, d.message) + p;
    PrependLookup(RecipientNameKey, d.receiverName, p, k);
    p := Optional(RecipientNameKey, d.receiverName) + p;
    PrependLookup(SenderLocationKey, SentIfTruthy(d.senderLocation), p, k);
    p := Optional(SenderLocationKey, SentIfTruthy(d.senderLocation)) + p;
    PrependLookup(SenderNameKey, d.senderName, p, k);
  }

  lemma TailLookup(d: Draft, k: Key)
    ensures Lookup(Tail(d), k) == if InHead(k) then None else Expected(d, k)
    ensures Count(Tail(d), k) <= if InHead(k) then 0 else 1
  {
    var p := TailEnd(d);
    TailEndLookup(d, k);
    PrependLookup(ImageUrlKey, SentIfTruthy(d.imageUrl), p, k);
    p := Optional(ImageUrlKey, SentIfTruthy(d.imageUrl)) + p;
    PrependLookup(MusicLinkKey, SentIfTruthy(d.musicLink), p, k);
    p := Optional(MusicLinkKey, SentIfTruthy(d.musicLink)) + p;
    PrependLookup(TitleKey, SentIfTruthy(d.title), p, k);
  }

  lemma TailEndLookup(d: Draft, k: Key)
    ensures Lookup(TailEnd(d), k) ==
      if k in {ProtectionQuestionKey, ProtectionAnswerKey, ImageKey} then Expected(d, k) else None
    ensures Count(TailEnd(d), k) <=
      if k in {ProtectionQuestionKey, ProtectionAnswerKey, ImageKey} then 1 else 0
  {
    var t := Optional(ImageKey, ImageChoice(d));
    PrependLookup(ImageKey, ImageChoice(d), [], k);
    assert t + [] == t;
    PrependLookup(ProtectionAnswerKey, SentIfTruthy(d.protectionAnswer), t, k);
    var p := Optional(ProtectionAnswerKey, SentIfTruthy(d.protectionAnswer)) + t;
    PrependLookup(ProtectionQuestionKey, SentIfTruthy(d.protectionQuestion), p, k);
    assert TailEnd(d) == Optional(ProtectionQuestionKey, SentIfTruthy(d.protectionQuestion)) + p;
    if k == ImageKey {
      assert Expected(d, k) == ImageChoice(d);
    }
  }

  /** How many entries carry the name `k`. */
  function Count(parts: seq<Part>, k: Key): (c: nat)
    ensures c <= |parts|
    ensures c == 0 <==> forall i | 0 <= i < |parts| :: parts[i].key != k
  {
    if parts == [] then 0
    else
      assert forall i | 1 <= i < |parts| :: parts[1..][i - 1] == parts[i];
      (if parts[0].key == k then 1 else 0) + Count(parts[1..], k)
  }

  lemma {:induction false} CountAppend(a: seq<Part>, b: seq<Part>, k: Key)
    ensures Count(a + b, k) == Count(a, k) + Count(b, k)
  {
    if a == [] {
      assert a + b == b;
    } else {
      assert (a + b)[1..] == a[1..] + b;
      CountAppend(a[1..], b, k);
    }
  }

  /** A body in which every name occurs at most once has distinct names. */
  lemma {:induction false} DistinctWhenCountsAtMostOne(parts: seq<Part>)
    requires forall k :: Count(parts, k) <= 1
    ensures KeysDistinct(parts)
  {
    if parts != [] {
      var rest := parts[1..];
      assert forall k :: Count(parts, k) == (if parts[0].key == k then 1 else 0) + Count(rest, k);
      DistinctWhenCountsAtMostOne(rest);
      assert Count(rest, parts[0].key) == 0;
      forall i, j | 0 <= i < j < |parts|
        ensures parts[i].key != parts[j].key
      {
        if i == 0 {
          assert parts[j] == rest[j - 1];
        } else {
          assert parts[i] == rest[i - 1] && parts[j] == rest[j - 1];
        }
      }
    }
  }

  /** Putting an optional entry in front of a body: the new entry wins the
      lookup of its own name and adds at most one occurrence of it. */
  lemma PrependLookup(k: Key, v: Option<string>, rest: seq<Part>, k': Key)
    ensures Lookup(Optional(k, v) + rest, k') == if k == k' && v.Some? then v else Lookup(rest, k')
    ensures Count(Optional(k, v) + rest, k') == (if k == k' && v.Some? then 1 else 0) + Count(rest, k')
  {
    if v.None? {
      assert Optional(k, v) + rest == rest;
    } else {
      assert (Optional(k, v) + rest)[1..] == rest;
    }
  }

  /** Looking a name up in two appended bodies finds it in the first one
      when it is there, and otherwise in the second. */
  lemma {:induction false} LookupAppend(a: seq<Part>, b: seq<Part>, k: Key)
    ensures Lookup(a + b, k) == if Lookup(a, k).Some? then Lookup(a, k) else Lookup(b, k)
  {
    if a == [] {
      assert a + b == b;
    } else {
      assert (a + b)[1..] == a[1..] + b;
      LookupAppend(a[1..], b, k);
    }
  }

  /** The creation endpoint's reply: `ok` is the HTTP status check,
      `success`, `slug`, `token` and `message` the JSON body's fields.
      `Unreachable` covers a failed request or an unreadable body. */
  datatype CreateReply =
    | Reply(ok: bool, success: bool, slug: string, token: string, message: Option<string>)
    | Unreachable

  /** What the handler does with a reply: record the new greeting, or alert. */
  datatype SubmitOutcome = Created(slug: string, token: string) | Alert(text: string)

  const CreateFailedText := "Failed to create Valentine. Please try again."
  const SubmitErrorText := "An error occurred. Please try again."

  /** A reply creates the greeting only when both the status and the body
      say so; every other reply ends in an alert that is never empty. */
  function HandleReply(reply: CreateReply): (r: SubmitOutcome)
    ensures r.Created? <==> reply.Reply? && reply.ok && reply.success
    ensures r.Created? ==> r.slug == reply.slug && r.token == reply.token
    ensures r.Alert? ==> Truthy(r.text)
    ensures (r.Alert? && reply.Reply? && reply.message.Some? && Truthy(reply.message.value))
              ==> r.text == reply.message.value
    ensures reply.Unreachable? ==> r == Alert(SubmitErrorText)
    ensures (reply.Reply? && !(reply.ok && reply.success)
              && !(reply.message.Some? && Truthy(reply.message.value)))
              ==> r == Alert(CreateFailedText)
  {
    match reply
    case Unreachable => Alert(SubmitErrorText)
    case Reply(ok, success, slug, token, message) =>
      if ok && success then Created(slug, token)
      else Alert(SentIfTruthy(message).GetOr(CreateFailedText))
  }
}
