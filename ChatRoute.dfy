/**
 * The chat endpoint's input handling (api/chat/route): the request validation and the
 * sanitising of each message's content before it is forwarded.
 */
module ChatRoute {
  import opened Common
  import opened Strings
  import opened Json

  /**
   * How the validation of a body ends: `validateRequest` returns true or false, and a `null`
   * element of `messages` makes `msg.role` throw, which the handler reports as status 500.
   */
  datatype Verdict = Accepted | Rejected | Throws

  const AllowedRoles: set<Json> := {JString("system"), JString("user"), JString("assistant")}

  /** The loop body's checks on one element, in the code's order. */
  function MessageVerdict(m: Json): Verdict {
    if m == JNull then Throws
    else
      var role := Member(m, "role");
      var content := Member(m, "content");
      if !TruthyMember(role) || !TruthyMember(content) then Rejected
      else if role.value !in AllowedRoles then Rejected
      else if !content.value.JString? then Rejected
      else Accepted
  }

  /** The `for` loop from element `i` on: the first element that does not pass decides. */
  function MessagesVerdict(ms: seq<Json>, i: nat): Verdict
    decreases |ms| - i
  {
    if i >= |ms| then Accepted
    else
      var v := MessageVerdict(ms[i]);
      if v != Accepted then v else MessagesVerdict(ms, i + 1)
  }

  /** `validateRequest`, with the throwing case made explicit. */
  function ValidateRequest(body: Json): (r: Verdict)
    ensures r != Rejected ==>
      && body.JObject? && "messages" in body.fields && body.fields["messages"].JArray?
      && |body.fields["messages"].items| > 0
  {
    if !Truthy(body) || !(body.JObject? || body.JArray?) then Rejected
    else
      var messages := Member(body, "messages");
      if !(messages.Some? && messages.value.JArray?) || |messages.value.items| == 0 then Rejected
      else MessagesVerdict(messages.value.items, 0)
  }

  /** A message the endpoint accepts: an object with an allowed role and non-empty string content. */
  predicate WellFormedMessage(m: Json) {
    && m.JObject?
    && "role" in m.fields && m.fields["role"] in AllowedRoles
    && "content" in m.fields && m.fields["content"].JString? && m.fields["content"].s != ""
  }

  /** A message passes exactly when it is well formed, and only `null` throws. */
  lemma MessageVerdictIff(m: Json)
    ensures MessageVerdict(m) == Accepted <==> WellFormedMessage(m)
    ensures MessageVerdict(m) == Throws <==> m == JNull
  {
    if m.JObject? && "role" in m.fields && m.fields["role"] in AllowedRoles {
      assert Truthy(m.fields["role"]);
    }
  }

  lemma {:induction false} MessagesVerdictIff(ms: seq<Json>, i: nat)
    requires i <= |ms|
    ensures MessagesVerdict(ms, i) == Accepted <==> forall k :: i <= k < |ms| ==> WellFormedMessage(ms[k])
    ensures MessagesVerdict(ms, i) == Throws <==>
      exists k :: i <= k < |ms| && ms[k] == JNull && forall j :: i <= j < k ==> WellFormedMessage(ms[j])
    decreases |ms| - i
  {
    if i < |ms| {
      MessageVerdictIff(ms[i]);
      MessagesVerdictIff(ms, i + 1);
      if MessagesVerdict(ms, i) == Throws && MessageVerdict(ms[i]) == Accepted {
        var k :| i + 1 <= k < |ms| && ms[k] == JNull && forall j :: i + 1 <= j < k ==> WellFormedMessage(ms[j]);
        assert forall j :: i <= j < k ==> WellFormedMessage(ms[j]);
      }
      if exists k :: i <= k < |ms| && ms[k] == JNull && forall j :: i <= j < k ==> WellFormedMessage(ms[j]) {
        var k :| i <= k < |ms| && ms[k] == JNull && forall j :: i <= j < k ==> WellFormedMessage(ms[j]);
        if k > i {
          assert WellFormedMessage(ms[i]);
          assert i + 1 <= k < |ms| && ms[k] == JNull && forall j :: i + 1 <= j < k ==> WellFormedMessage(ms[j]);
        }
      }
    }
  }

  /** A request passes exactly when its body is an object with a non-empty array of good messages. */
  lemma ValidateRequestIff(body: Json)
    ensures ValidateRequest(body) == Accepted <==>
      && body.JObject? && "messages" in body.fields && body.fields["messages"].JArray?
      && |body.fields["messages"].items| > 0
      && forall k :: 0 <= k < |body.fields["messages"].items| ==> WellFormedMessage(body.fields["messages"].items[k])
    ensures ValidateRequest(body) == Throws ==> body.JObject? && JNull in body.fields["messages"].items
  {
    if body.JObject? && "messages" in body.fields && body.fields["messages"].JArray? {
      MessagesVerdictIff(body.fields["messages"].items, 0);
    }
  }

  /** Empty content is rejected, because the empty string is falsy. */
  lemma EmptyContentRejected()
    ensures ValidateRequest(JObject(map["messages" := JArray([JObject(map["role" := JString("user"), "content" := JString("")])])])) == Rejected
  {
    var m := JObject(map["role" := JString("user"), "content" := JString("")]);
    MessagesVerdictIff([m], 0);
    assert !WellFormedMessage(m);
  }

  /** The content length limit. */
  const MaxContentLength: nat := 10000

  /** `sanitizeMessage`: `content.trim().slice(0, 10000)`. */
  function SanitizeMessage(content: string): (r: string)
    ensures |r| == Min(|Trim(content)|, MaxContentLength)
    ensures var t := Trim(content); |r| <= |t| && r == t[..|r|]
    ensures |Trim(content)| <= MaxContentLength ==> r == Trim(content)
    ensures r == [] || !IsJsWhitespace(r[0])
  {
    var t := Trim(content);
    if |t| <= MaxContentLength then t else t[..MaxContentLength]
  }

  /**
   * Sanitising a content whose trimmed form fits the limit a second time changes nothing (a cut
   * longer content can end in whitespace, which a second pass would strip).
   */
  lemma SanitizeIdempotent(content: string)
    requires |Trim(content)| <= MaxContentLength
    ensures SanitizeMessage(SanitizeMessage(content)) == SanitizeMessage(content)
  {
    TrimIdempotent(content);
  }

  /** One element of the handler's map: `{...msg, content: sanitizeMessage(msg.content)}`. */
  function SanitizeOne(m: Json): (r: Json)
    requires WellFormedMessage(m)
    ensures r.JObject? && r.fields.Keys == m.fields.Keys && r.fields["role"] == m.fields["role"]
    ensures r.fields["content"] == JString(SanitizeMessage(m.fields["content"].s))
    ensures forall f :: f in m.fields && f != "content" ==> r.fields[f] == m.fields[f]
  {
    JObject(m.fields["content" := JString(SanitizeMessage(m.fields["content"].s))])
  }

  /** The handler's `messages.map(...)`: same length and order, each element sanitised. */
  function SanitizeMessages(ms: seq<Json>): (r: seq<Json>)
    requires forall k :: 0 <= k < |ms| ==> WellFormedMessage(ms[k])
    ensures |r| == |ms|
    ensures forall k :: 0 <= k < |ms| ==> r[k] == SanitizeOne(ms[k])
  {
    seq(|ms|, k requires 0 <= k < |ms| => SanitizeOne(ms[k]))
  }

  /** Content of only whitespace passes validation but reaches the provider empty. */
  lemma BlankContentSent()
    ensures WellFormedMessage(JObject(map["role" := JString("user"), "content" := JString("  ")]))
    ensures SanitizeMessage("  ") == ""
  {
    TrimEmptyIffBlank("  ");
  }
}
