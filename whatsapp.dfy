/**
  The WhatsApp front end (scripts/bot_whatsapp.py): the phone-number fix for Argentine
  mobiles, the sends one reply bubble turns into (a Markdown image `![alt](url)` becomes
  an image message, its text a caption when short enough), webhook verification, the
  extraction of inbound text messages from Meta's nested payload, and the per-number
  session with its delivery loop. Posts to the Cloud API are recorded, not performed.
*/
module WhatsApp {
  import opened Wrappers
  import opened Text
  import opened Messages
  import opened Agent
  import opened Sessions

  // ---------------------------------------------------------------------------
  // Phone numbers
  // ---------------------------------------------------------------------------

  /** Webhooks carry Argentine mobiles as 549…; the send API wants them without the 9. */
  function NormalizePhone(p: string): (r: string)
    ensures |p| == 13 && p[..3] == "549" ==> r == "54" + p[3..] && |r| == 12
    ensures !(|p| == 13 && p[..3] == "549") ==> r == p
  {
    if |p| == 13 && p[..3] == "549" then "54" + p[3..] else p
  }

  /** Normalising twice is normalising once. */
  lemma {:induction false} NormalizePhoneIdempotent(p: string)
    ensures NormalizePhone(NormalizePhone(p)) == NormalizePhone(p)
  {
  }

  // ---------------------------------------------------------------------------
  // The image token: the leftmost match of !\[(.*?)\]\((.*?)\)
  // ---------------------------------------------------------------------------

  predicate NoNewline(s: string) {
    forall i :: 0 <= i < |s| ==> s[i] != '\n'
  }

  /** Where a match starts, where its alt text ends (at `](`) and where its `)` is. */
  datatype ImageToken = ImageToken(start: nat, altEnd: nat, urlEnd: nat)

  /** `t` is a match of the pattern in `s`: `![`, alt, `](`, url, `)`, no line break inside. */
  predicate IsImageToken(s: string, t: ImageToken) {
    && t.start + 2 <= t.altEnd && t.altEnd + 2 <= t.urlEnd < |s|
    && s[t.start] == '!' && s[t.start + 1] == '['
    && s[t.altEnd] == ']' && s[t.altEnd + 1] == '('
    && s[t.urlEnd] == ')'
    && NoNewline(s[t.start + 2..t.altEnd]) && NoNewline(s[t.altEnd + 2..t.urlEnd])
  }

  /** The lazy url group: the first `)` from k, unless a line break comes first. */
  function CloseParen(s: string, k: nat): (r: Option<nat>)
    requires k <= |s|
    ensures r.Some? ==> k <= r.value < |s| && s[r.value] == ')' && NoNewline(s[k..r.value])
    decreases |s| - k
  {
    if k == |s| then None
    else if s[k] == ')' then Some(k)
    else if s[k] == '\n' then None
    else
      var r := CloseParen(s, k + 1);
      if r.Some? then assert s[k..r.value] == [s[k]] + s[k + 1..r.value]; r else r
  }

  /** The lazy alt group: the first `](` from k that a url group can follow, before any line break. */
  function AltEnd(s: string, k: nat): (r: Option<nat>)
    requires k <= |s|
    ensures r.Some? ==> k <= r.value && r.value + 2 <= |s| && s[r.value] == ']' && s[r.value + 1] == '('
                        && CloseParen(s, r.value + 2).Some? && NoNewline(s[k..r.value])
    decreases |s| - k
  {
    if k + 2 > |s| then None
    else if s[k] == ']' && s[k + 1] == '(' && CloseParen(s, k + 2).Some? then Some(k)
    else if s[k] == '\n' then None
    else
      var r := AltEnd(s, k + 1);
      if r.Some? then assert s[k..r.value] == [s[k]] + s[k + 1..r.value]; r else r
  }

  /** The match starting at i, if the pattern matches there. */
  function ImageAt(s: string, i: nat): (r: Option<ImageToken>)
    requires i <= |s|
    ensures r.Some? ==> r.value.start == i && IsImageToken(s, r.value)
  {
    if i + 2 <= |s| && s[i] == '!' && s[i + 1] == '[' then
      match AltEnd(s, i + 2)
      case None => None
      case Some(j) => Some(ImageToken(i, j, CloseParen(s, j + 2).value))
    else None
  }

  /** re.search: the match at the leftmost position from i where the pattern matches. */
  function FindImage(s: string, i: nat): (r: Option<ImageToken>)
    requires i <= |s|
    ensures r.Some? ==> i <= r.value.start && IsImageToken(s, r.value)
    ensures forall j :: i <= j < (if r.Some? then r.value.start else |s| + 1) ==> ImageAt(s, j).None?
    decreases |s| - i
  {
    var here := ImageAt(s, i);
    if here.Some? then here
    else if i == |s| then None
    else FindImage(s, i + 1)
  }

  lemma {:induction false} CloseParenFinds(s: string, k: nat, e: nat)
    requires k <= e < |s| && s[e] == ')' && NoNewline(s[k..e])
    ensures CloseParen(s, k).Some? && CloseParen(s, k).value <= e
    decreases e - k
  {
    if k < e && s[k] != ')' {
      assert s[k] == s[k..e][0];
      assert s[k + 1..e] == s[k..e][1..];
      CloseParenFinds(s, k + 1, e);
    }
  }

  lemma {:induction false} AltEndFinds(s: string, k: nat, a: nat)
    requires k <= a && a + 2 <= |s| && s[a] == ']' && s[a + 1] == '(' && CloseParen(s, a + 2).Some?
    requires NoNewline(s[k..a])
    ensures AltEnd(s, k).Some? && AltEnd(s, k).value <= a
    decreases a - k
  {
    if k < a && !(s[k] == ']' && s[k + 1] == '(' && CloseParen(s, k + 2).Some?) {
      assert s[k] == s[k..a][0];
      assert s[k + 1..a] == s[k..a][1..];
      AltEndFinds(s, k + 1, a);
    }
  }

  /** Wherever the pattern can match, the finder matches there, with the shortest alt text. */
  lemma {:induction false} ImageAtFinds(s: string, t: ImageToken)
    requires IsImageToken(s, t)
    ensures ImageAt(s, t.start).Some? && ImageAt(s, t.start).value.altEnd <= t.altEnd
  {
    CloseParenFinds(s, t.altEnd + 2, t.urlEnd);
    AltEndFinds(s, t.start + 2, t.altEnd);
  }

  /** So FindImage returns the leftmost match, and None exactly when the text holds no match. */
  lemma {:induction false} FindImageIsLeftmost(s: string, t: ImageToken)
    requires IsImageToken(s, t)
    ensures FindImage(s, 0).Some? && FindImage(s, 0).value.start <= t.start
  {
    ImageAtFinds(s, t);
  }

  /** The matched text `![alt](url)`. */
  function Whole(s: string, t: ImageToken): (w: string)
    requires IsImageToken(s, t)
    ensures |w| >= 5 && OccursAt(s, w, t.start)
  {
    s[t.start..t.urlEnd + 1]
  }

  function Url(s: string, t: ImageToken): string
    requires IsImageToken(s, t)
  {
    s[t.altEnd + 2..t.urlEnd]
  }

  // ---------------------------------------------------------------------------
  // send_whatsapp_message as the list of posts it makes
  // ---------------------------------------------------------------------------

  /** One POST to the Cloud API's messages endpoint of phone id `from`. */
  datatype Post =
    | TextPost(from: string, to: string, body: string)
    | ImagePost(from: string, to: string, link: string, caption: Option<string>)

  /** WhatsApp bold is a single asterisk. */
  function WhatsAppMarkdown(s: string): (r: string)
    ensures |r| <= |s|
  {
    Replace(s, "**", "*")
  }

  const CaptionLimit := 1000
  const TextLimit := 4096

  /** The caption text: every copy of the token removed, stripped, bold markers translated. */
  function Caption(text: string, t: ImageToken): (r: string)
    requires IsImageToken(text, t)
    ensures |r| < |text|
  {
    var w := Whole(text, t);
    assert Find(text, w).Some?;
    WhatsAppMarkdown(Strip(Replace(text, w, "")))
  }

  /**
    The posts for one bubble. Empty `token` or `phoneId` stand for credentials that are
    missing from the environment.
  */
  function SendPlan(token: string, phoneId: string, to: string, text: string): (posts: seq<Post>)
    ensures forall k :: 0 <= k < |posts| ==> posts[k].from == phoneId && posts[k].to == to
    ensures token != "" && phoneId != "" ==> posts != []
    decreases |text|
  {
    if token == "" || phoneId == "" then []
    else
      match FindImage(text, 0)
      case Some(t) =>
        var caption := Caption(text, t);
        if |caption| > CaptionLimit then
          [ImagePost(phoneId, to, Url(text, t), None)]
            + SendPlan(token, phoneId, to, caption[..if |caption| < TextLimit then |caption| else TextLimit])
        else [ImagePost(phoneId, to, Url(text, t), Some(caption))]
      case None => [TextPost(phoneId, to, WhatsAppMarkdown(text))]
  }

  /** Missing credentials: nothing is posted. */
  lemma {:induction false} NoCredentialsNoPosts(phoneId: string, to: string, text: string)
    ensures SendPlan("", phoneId, to, text) == [] && SendPlan(phoneId, "", to, text) == []
  {
  }

  /**
    With credentials, a bubble without an image is exactly one text post of the
    translated bubble; with an image whose caption fits, exactly one image post with that
    caption; with a longer caption, first the image alone, then the posts for the
    caption cut to 4096 characters.
  */
  lemma {:induction false} SendPlanCases(token: string, phoneId: string, to: string, text: string)
    requires token != "" && phoneId != ""
    ensures FindImage(text, 0).None? ==> SendPlan(token, phoneId, to, text) == [TextPost(phoneId, to, WhatsAppMarkdown(text))]
    ensures FindImage(text, 0).Some? ==>
      var t := FindImage(text, 0).value;
      var caption := Caption(text, t);
      var posts := SendPlan(token, phoneId, to, text);
      && |posts| >= 1
      && posts[0].ImagePost? && posts[0].link == Url(text, t)
      && (|caption| <= CaptionLimit ==> posts == [ImagePost(phoneId, to, Url(text, t), Some(caption))])
      && (|caption| > CaptionLimit ==>
            && posts[0].caption == None
            && posts[1..] == SendPlan(token, phoneId, to, caption[..if |caption| < TextLimit then |caption| else TextLimit]))
  {
    var f := FindImage(text, 0);
    if f.Some? {
      var caption := Caption(text, f.value);
      if |caption| > CaptionLimit {
        var rest := SendPlan(token, phoneId, to, caption[..if |caption| < TextLimit then |caption| else TextLimit]);
        assert ([ImagePost(phoneId, to, Url(text, f.value), None)] + rest)[1..] == rest;
      }
    }
  }

  /** Every caption attached to an image is at most 1000 characters: long text and image never share a post. */
  lemma {:induction false} CaptionsFit(token: string, phoneId: string, to: string, text: string)
    ensures forall p :: p in SendPlan(token, phoneId, to, text) && p.ImagePost? && p.caption.Some? ==>
      |p.caption.value| <= 1000
    decreases |text|
  {
    if token != "" && phoneId != "" {
      var f := FindImage(text, 0);
      if f.Some? {
        var caption := Caption(text, f.value);
        if |caption| > CaptionLimit {
          CaptionsFit(token, phoneId, to, caption[..if |caption| < TextLimit then |caption| else TextLimit]);
        }
      }
    }
  }

  /** Only the last post can be a text post: every earlier one is an image. */
  lemma {:induction false} TextPostOnlyLast(token: string, phoneId: string, to: string, text: string)
    ensures var posts := SendPlan(token, phoneId, to, text);
      forall k :: 0 <= k < |posts| - 1 ==> posts[k].ImagePost?
    decreases |text|
  {
    var posts := SendPlan(token, phoneId, to, text);
    if token != "" && phoneId != "" {
      SendPlanCases(token, phoneId, to, text);
      var f := FindImage(text, 0);
      if f.Some? && |Caption(text, f.value)| > CaptionLimit {
        var caption := Caption(text, f.value);
        var cut := caption[..if |caption| < TextLimit then |caption| else TextLimit];
        TextPostOnlyLast(token, phoneId, to, cut);
        forall k | 1 <= k < |posts| - 1
          ensures posts[k].ImagePost?
        {
          assert posts[k] == posts[1..][k - 1];
        }
      }
    }
  }

  /** After an image, a text post holds at most 4096 characters. */
  lemma {:induction false} TextAfterImageFits(token: string, phoneId: string, to: string, text: string)
    ensures var posts := SendPlan(token, phoneId, to, text);
      forall k :: 0 < k < |posts| && posts[k].TextPost? ==> |posts[k].body| <= TextLimit
    decreases |text|
  {
    var posts := SendPlan(token, phoneId, to, text);
    if token != "" && phoneId != "" {
      SendPlanCases(token, phoneId, to, text);
      var f := FindImage(text, 0);
      if f.Some? && |Caption(text, f.value)| > CaptionLimit {
        var caption := Caption(text, f.value);
        var cut := caption[..if |caption| < TextLimit then |caption| else TextLimit];
        TextAfterImageFits(token, phoneId, to, cut);
        TextPostBounded(token, phoneId, to, cut);
        forall k | 0 < k < |posts| && posts[k].TextPost?
          ensures |posts[k].body| <= TextLimit
        {
          assert posts[k] == posts[1..][k - 1];
        }
      }
    }
  }

  /** A plan's first post, when it is a text post, is no longer than the bubble. */
  lemma {:induction false} TextPostBounded(token: string, phoneId: string, to: string, text: string)
    ensures var posts := SendPlan(token, phoneId, to, text);
      posts != [] && posts[0].TextPost? ==> |posts[0].body| <= |text|
  {
  }

  // ---------------------------------------------------------------------------
  // GET /webhook: verification
  // ---------------------------------------------------------------------------

  /** The verify token used when WHATSAPP_VERIFY_TOKEN is not set. */
  const DefaultVerifyToken := "ricardo_broker_secreto_2026"

  function ExpectedVerifyToken(configured: Option<string>): (r: string)
    ensures configured.None? ==> r == DefaultVerifyToken
    ensures configured.Some? ==> r == configured.value
  {
    if configured.Some? then configured.value else DefaultVerifyToken
  }

  /**
    The challenge is echoed exactly when the mode is "subscribe" and the token is the
    expected one; any other request is rejected with status 403.
  */
  function VerifyWebhook(mode: Option<string>, challenge: Option<int>, token: Option<string>, expected: string)
    : (r: Result<Option<int>, int>)
    ensures r.Ok? <==> mode == Some("subscribe") && token == Some(expected)
    ensures r.Ok? ==> r.value == challenge
    ensures r.Err? ==> r.error == 403
  {
    if mode == Some("subscribe") && token == Some(expected) then Ok(challenge) else Err(403)
  }

  /** Without a configured token, only the built-in secret verifies. */
  lemma {:induction false} DefaultTokenVerifies(challenge: Option<int>, token: Option<string>)
    ensures VerifyWebhook(Some("subscribe"), challenge, token, ExpectedVerifyToken(None)).Ok?
      <==> token == Some("ricardo_broker_secreto_2026")
  {
  }

  // ---------------------------------------------------------------------------
  // POST /webhook: the inbound payload
  // ---------------------------------------------------------------------------

  /** A parsed JSON body (numbers as integers). */
  datatype Json =
    | JNull
    | JBool(b: bool)
    | JNum(n: int)
    | JStr(s: string)
    | JArr(items: seq<Json>)
    | JObj(fields: map<string, Json>)

  /** `obj.get(key, default)` on a dict. */
  function Get(fields: map<string, Json>, key: string, default: Json): (r: Json)
    ensures key in fields ==> r == fields[key]
    ensures key !in fields ==> r == default
  {
    if key in fields then fields[key] else default
  }

  /**
    What `for x in j` walks over: a list's items. An empty string or dict walks over
    nothing; any other value raises, at once or at the first `.get` on one of its items.
  */
  function Items(j: Json): (r: Option<seq<Json>>)
    ensures j.JArr? ==> r == Some(j.items)
    ensures r.Some? ==> j.JArr? || r == Some([])
  {
    match j
    case JArr(xs) => Some(xs)
    case JStr(s) => if s == [] then Some([]) else None
    case JObj(m) => if m == map[] then Some([]) else None
    case _ => None
  }

  /** `"messages" in value`, or None where `in` raises. */
  function HasMessages(value: Json): Option<bool> {
    match value
    case JObj(m) => Some("messages" in m)
    case JArr(xs) => Some(JStr("messages") in xs)
    case JStr(s) => Some(Contains(s, "messages"))
    case _ => None
  }

  /** A processing task: the normalised sender and the message body. */
  datatype Task = Task(phone: string, body: Json)

  /** What one change of an entry leads to. */
  datatype ChangeStep = Skip | Spawn(task: Task) | Fail

  /** The handling of one `change`, with the errors Python would raise. */
  function ChangeOutcome(change: Json): (r: ChangeStep)
    ensures r.Spawn? ==> NormalizePhone(r.task.phone) == r.task.phone
  {
    if !change.JObj? then Fail
    else
      var value := Get(change.fields, "value", JObj(map[]));
      match HasMessages(value)
      case None => Fail
      case Some(false) => Skip
      case Some(true) =>
        if !value.JObj? then Fail
        else
          var msgs := value.fields["messages"];
          if !(msgs.JArr? && msgs.items != []) then Fail
          else
            var message := msgs.items[0];
            if !message.JObj? then Fail
            else
              var from := Get(message.fields, "from", JNull);
              if !from.JStr? then Fail
              else if Get(message.fields, "type", JNull) != JStr("text") then Skip
              else
                var text := Get(message.fields, "text", JObj(map[]));
                if !text.JObj? then Fail
                else
                  NormalizePhoneIdempotent(from.s);
                  Spawn(Task(NormalizePhone(from.s), Get(text.fields, "body", JStr(""))))
  }

  /** The tasks started so far, and whether the handler has raised (which ends the walk). */
  datatype Scan = Scan(tasks: seq<Task>, failed: bool)

  function ScanChanges(changes: seq<Json>): (r: Scan)
    ensures |r.tasks| <= |changes|
    decreases |changes|
  {
    if changes == [] then Scan([], false)
    else
      var before := ScanChanges(changes[..|changes| - 1]);
      if before.failed then before
      else
        match ChangeOutcome(changes[|changes| - 1])
        case Fail => Scan(before.tasks, true)
        case Skip => before
        case Spawn(t) => Scan(before.tasks + [t], false)
  }

  /** One entry: its `changes`, walked in order. */
  function EntryScan(entry: Json): (r: Scan)
    ensures !entry.JObj? ==> r == Scan([], true)
    ensures |r.tasks| <= (if entry.JObj? && Get(entry.fields, "changes", JArr([])).JArr?
                          then |Get(entry.fields, "changes", JArr([])).items| else 0)
  {
    if !entry.JObj? then Scan([], true)
    else
      match Items(Get(entry.fields, "changes", JArr([])))
      case None => Scan([], true)
      case Some(changes) => ScanChanges(changes)
  }

  function ScanEntries(entries: seq<Json>): (r: Scan)
    ensures r.failed <==> exists i :: 0 <= i < |entries| && EntryScan(entries[i]).failed
    decreases |entries|
  {
    if entries == [] then Scan([], false)
    else
      var before := ScanEntries(entries[..|entries| - 1]);
      if before.failed then before
      else
        var e := EntryScan(entries[|entries| - 1]);
        Scan(before.tasks + e.tasks, e.failed)
  }

  const BusinessAccount := "whatsapp_business_account"

  /** The tasks a parsed body starts; a raise keeps the tasks already started. */
  function InboundTasks(body: Json): (tasks: seq<Task>)
    ensures forall t :: t in tasks ==> NormalizePhone(t.phone) == t.phone
    ensures !body.JObj? || Get(body.fields, "object", JNull) != JStr(BusinessAccount) ==> tasks == []
  {
    if !body.JObj? || Get(body.fields, "object", JNull) != JStr(BusinessAccount) then []
    else
      match Items(Get(body.fields, "entry", JArr([])))
      case None => []
      case Some(entries) =>
        EntriesNormalized(entries);
        ScanEntries(entries).tasks
  }

  /** The JSON answer and its HTTP status. */
  datatype Answer = Answer(status: int, message: string)

  /** The inner loop: the changes of one entry, in order, until one raises. */
  method WalkChanges(cs: seq<Json>) returns (found: seq<Task>, failed: bool)
    ensures Scan(found, failed) == ScanChanges(cs)
  {
    found, failed := [], false;
    for j := 0 to |cs|
      invariant Scan(found, false) == ScanChanges(cs[..j])
    {
      assert cs[..j + 1][..j] == cs[..j];
      var step := ChangeOutcome(cs[j]);
      if step.Fail? {
        ScanChangesStop(cs, j + 1);
        return found, true;
      }
      if step.Spawn? {
        found := found + [step.task];
      }
    }
    assert cs[..|cs|] == cs;
  }

  /** The outer loop: the entries, in order, until one raises. */
  method WalkEntries(es: seq<Json>) returns (found: seq<Task>, failed: bool)
    ensures Scan(found, failed) == ScanEntries(es)
  {
    found, failed := [], false;
    for i := 0 to |es|
      invariant Scan(found, false) == ScanEntries(es[..i])
    {
      assert es[..i + 1][..i] == es[..i];
      var entry := es[i];
      var more: seq<Task> := [];
      if !entry.JObj? {
        failed := true;
      } else {
        var changes := Items(Get(entry.fields, "changes", JArr([])));
        if changes.None? {
          failed := true;
        } else {
          more, failed := WalkChanges(changes.value);
        }
      }
      found := found + more;
      if failed {
        StopScan(es, i + 1);
        return;
      }
    }
    assert es[..|es|] == es;
  }

  /**
    POST /webhook. An unparsable body is answered 400; a parsed one always "ok", whatever
    the walk over entries and changes met.
  */
  method HandleWebhook(body: Option<Json>) returns (answer: Answer, tasks: seq<Task>)
    ensures body.None? ==> answer == Answer(400, "error parsing json") && tasks == []
    ensures body.Some? ==> answer == Answer(200, "ok") && tasks == InboundTasks(body.value)
  {
    tasks := [];
    if body.None? {
      return Answer(400, "error parsing json"), [];
    }
    answer := Answer(200, "ok");
    var payload := body.value;
    if !payload.JObj? || Get(payload.fields, "object", JNull) != JStr(BusinessAccount) {
      return;
    }
    var entries := Items(Get(payload.fields, "entry", JArr([])));
    if entries.Some? {
      var failed;
      tasks, failed := WalkEntries(entries.value);
    }
  }

  /** Once the walk over a prefix of the entries has raised, so has the whole walk. */
  lemma {:induction false} StopScan(es: seq<Json>, i: nat)
    requires i <= |es| && ScanEntries(es[..i]).failed
    ensures ScanEntries(es) == ScanEntries(es[..i])
    decreases |es| - i
  {
    if i < |es| {
      assert es[..i + 1][..i] == es[..i];
      StopScan(es, i + 1);
    } else {
      assert es[..i] == es;
    }
  }

  lemma {:induction false} ScanChangesStop(cs: seq<Json>, j: nat)
    requires j <= |cs| && ScanChanges(cs[..j]).failed
    ensures ScanChanges(cs) == ScanChanges(cs[..j])
    decreases |cs| - j
  {
    if j < |cs| {
      assert cs[..j + 1][..j] == cs[..j];
      ScanChangesStop(cs, j + 1);
    } else {
      assert cs[..j] == cs;
    }
  }

  lemma {:induction false} ChangesNormalized(cs: seq<Json>)
    ensures forall t :: t in ScanChanges(cs).tasks ==> NormalizePhone(t.phone) == t.phone
    decreases |cs|
  {
    if cs != [] {
      ChangesNormalized(cs[..|cs| - 1]);
    }
  }

  lemma {:induction false} EntriesNormalized(es: seq<Json>)
    ensures forall t :: t in ScanEntries(es).tasks ==> NormalizePhone(t.phone) == t.phone
    decreases |es|
  {
    if es != [] {
      EntriesNormalized(es[..|es| - 1]);
      var last := es[|es| - 1];
      if last.JObj? {
        var cs := Items(Get(last.fields, "changes", JArr([])));
        if cs.Some? {
          ChangesNormalized(cs.value);
        }
      }
    }
  }

  /** The shape Meta sends for one text message: one entry, one change, one message. */
  function TextMessage(from: string, text: string): Json {
    JObj(map["from" := JStr(from), "type" := JStr("text"), "text" := JObj(map["body" := JStr(text)])])
  }

  function TextChange(from: string, text: string): Json {
    JObj(map["value" := JObj(map["messages" := JArr([TextMessage(from, text)])])])
  }

  function TextPayload(from: string, text: string): Json {
    JObj(map["object" := JStr(BusinessAccount),
             "entry" := JArr([JObj(map["changes" := JArr([TextChange(from, text)])])])])
  }

  /** Such a payload starts exactly one task, for the normalised sender and the text. */
  lemma {:induction false} TextPayloadStartsOneTask(from: string, text: string)
    ensures InboundTasks(TextPayload(from, text)) == [Task(NormalizePhone(from), JStr(text))]
  {
    var change := TextChange(from, text);
    var entry := JObj(map["changes" := JArr([change])]);
    var task := Task(NormalizePhone(from), JStr(text));
    assert ChangeOutcome(change) == Spawn(task);
    assert [change][..0] == [];
    assert ScanChanges([change]).tasks == [task];
    assert [entry][..0] == [];
    assert ScanEntries([entry]).tasks == [task];
  }

  /** A status update (a change without "messages") starts nothing. */
  lemma {:induction false} StatusUpdateStartsNothing(value: map<string, Json>)
    requires "messages" !in value
    ensures ChangeOutcome(JObj(map["value" := JObj(value)])) == Skip
  {
  }

  // ---------------------------------------------------------------------------
  // procesar_langgraph: the session and the delivery loop
  // ---------------------------------------------------------------------------

  /** The posts one bubble turns into, for a sender configuration and a recipient. */
  function PlanFor(token: string, phoneId: string, to: string): string -> seq<Post> {
    b => SendPlan(token, phoneId, to, b)
  }

  /** The posts the delivery loop makes for a buffer: each non-blank bubble's plan, in order. */
  function WaDelivery(plan: string -> seq<Post>, buffer: seq<string>): (posts: seq<Post>)
    ensures (forall k :: 0 <= k < |buffer| ==> IsBlank(buffer[k])) ==> posts == []
    decreases |buffer|
  {
    if buffer == [] then []
    else
      var last := buffer[|buffer| - 1];
      WaDelivery(plan, buffer[..|buffer| - 1]) + (if IsBlank(last) then [] else plan(last))
  }

  /** Delivering one more bubble adds that bubble's posts, or none for a blank one. */
  lemma {:induction false} WaDeliverySnoc(plan: string -> seq<Post>, buffer: seq<string>, i: nat)
    requires i < |buffer|
    ensures WaDelivery(plan, buffer[..i + 1]) ==
      WaDelivery(plan, buffer[..i]) + (if IsBlank(buffer[i]) then [] else plan(buffer[i]))
  {
    assert buffer[..i + 1][..i] == buffer[..i];
  }

  /** The plans of a list of bubbles, one after the other. */
  function PlansFor(plan: string -> seq<Post>, bubbles: seq<string>): seq<Post>
    decreases |bubbles|
  {
    if bubbles == [] then [] else plan(bubbles[0]) + PlansFor(plan, bubbles[1..])
  }

  lemma {:induction false} PlansForSnoc(plan: string -> seq<Post>, bubbles: seq<string>, b: string)
    ensures PlansFor(plan, bubbles + [b]) == PlansFor(plan, bubbles) + plan(b)
    decreases |bubbles|
  {
    if bubbles == [] {
      assert [b][1..] == [];
    } else {
      assert (bubbles + [b])[1..] == bubbles[1..] + [b];
      PlansForSnoc(plan, bubbles[1..], b);
      ConcatAssoc(plan(bubbles[0]), PlansFor(plan, bubbles[1..]), plan(b));
    }
  }

  /**
    The delivery loop sends exactly the plans of the non-blank bubbles, in buffer order:
    blank bubbles send nothing.
  */
  lemma {:induction false} DeliveryIsPlansOfNonBlank(plan: string -> seq<Post>, buffer: seq<string>)
    ensures WaDelivery(plan, buffer) == PlansFor(plan, NonBlank(buffer))
    decreases |buffer|
  {
    if buffer != [] {
      var init, last := buffer[..|buffer| - 1], buffer[|buffer| - 1];
      DeliveryIsPlansOfNonBlank(plan, init);
      if IsBlank(last) {
        assert NonBlank(buffer) == NonBlank(init) + [] == NonBlank(init);
        assert WaDelivery(plan, buffer) == WaDelivery(plan, init) + [] == WaDelivery(plan, init);
      } else {
        PlansForSnoc(plan, NonBlank(init), last);
      }
    }
  }

  /** Without credentials the whole delivery posts nothing. */
  lemma {:induction false} NoCredentialsNoDelivery(phoneId: string, to: string, buffer: seq<string>)
    ensures WaDelivery(PlanFor("", phoneId, to), buffer) == []
    decreases |buffer|
  {
    if buffer != [] {
      NoCredentialsNoDelivery(phoneId, to, buffer[..|buffer| - 1]);
      NoCredentialsNoPosts(phoneId, to, buffer[|buffer| - 1]);
    }
  }

  class WhatsAppBot {
    /** WHATSAPP_TOKEN and WHATSAPP_PHONE_ID; empty when missing. */
    const token: string
    const phoneId: string
    /** `MEMORY_STORAGE`: phone number to graph state. */
    var memory: map<string, AgentState>
    /** Every post made to the Cloud API, in order. */
    var posts: seq<Post>

    constructor(token: string, phoneId: string)
      ensures this.token == token && this.phoneId == phoneId && memory == map[] && posts == []
    {
      this.token := token;
      this.phoneId := phoneId;
      memory := map[];
      posts := [];
    }

    /**
      One processing task: admit the text into the number's state (fresh for a new
      number), run the graph, store its result and post the buffer's non-blank bubbles.
      When the graph raises, processing ends with the message appended and nothing posted.
    */
    method Process(phone: string, text: string, env: Env, fuel: nat)
      modifies this
      ensures var admitted := Admitted(old(memory), phone, text);
              var o := Run(admitted, AgentNode(env), env.tools, 0, fuel);
        && (o.Done? ==> memory == old(memory)[phone := o.state]
                        && posts == old(posts) + WaDelivery(PlanFor(token, phoneId, phone), o.state.buffer))
        && (!o.Done? ==> memory == old(memory)[phone := admitted] && posts == old(posts))
    {
      if phone !in memory {
        memory := memory[phone := FreshState];
      }
      var current := memory[phone];
      memory := memory[phone := current.(history := current.history + [Human(text)])];
      assert memory[phone] == Admitted(old(memory), phone, text);
      var o := Invoke(memory[phone], env, fuel);
      if !o.Done? {
        return;
      }
      memory := memory[phone := o.state];
      Deliver(phone, o.state.buffer);
    }

    /** The delivery loop: each non-blank bubble through send_whatsapp_message, in order. */
    method Deliver(to: string, buffer: seq<string>)
      modifies this
      ensures memory == old(memory)
      ensures posts == old(posts) + WaDelivery(PlanFor(token, phoneId, to), buffer)
    {
      var plan := PlanFor(token, phoneId, to);
      for i := 0 to |buffer|
        invariant memory == old(memory)
        invariant posts == old(posts) + WaDelivery(plan, buffer[..i])
      {
        var more := if IsBlank(buffer[i]) then [] else plan(buffer[i]);
        WaDeliverySnoc(plan, buffer, i);
        ConcatAssoc(old(posts), WaDelivery(plan, buffer[..i]), more);
        posts := posts + more;
      }
      assert buffer[..|buffer|] == buffer;
    }
  }
}
