/**
 * The request building and reply normalisation of geminiService.ts. The model call itself is
 * not modelled: its reply text is an input, `JSON.parse` is a parameter `parse`, and the
 * system prompt text is a parameter `systemCore`.
 */
module GeminiService {
  import opened AuditTypes
  import opened SeqUtil

  // ---------------------------------------------------------------------------------------
  // cleanText: delete the markdown markers, then trim
  // ---------------------------------------------------------------------------------------

  /** The characters of the class `[#*_~`]`, listed in `MarkerClass`. */
  predicate IsMarker(c: char)
    ensures IsMarker(c) <==> c in MarkerClass
  {
    c == '#' || c == '*' || c == '_' || c == '~' || c == '`'
  }

  const MarkerClass: string := "#*_~`"

  /** The WhiteSpace code points of ECMAScript: TAB, VT, FF, ZWNBSP and the space separators. */
  const EcmaWhiteSpace: string :=
    "\t\U{000B}\U{000C}\U{FEFF} \U{00A0}\U{1680}"
    + "\U{2000}\U{2001}\U{2002}\U{2003}\U{2004}\U{2005}\U{2006}\U{2007}\U{2008}\U{2009}\U{200A}"
    + "\U{202F}\U{205F}\U{3000}"

  /** The LineTerminator code points of ECMAScript: LF, CR, LS and PS. */
  const EcmaLineTerminators: string := "\n\r\U{2028}\U{2029}"

  /** What `String.prototype.trim` removes: the WhiteSpace and LineTerminator characters of ECMAScript. */
  predicate IsTrimmable(c: char)
  {
    || c == '\t' || c == '\n' || c == '\U{000B}' || c == '\U{000C}' || c == '\r' || c == ' '
    || c == '\U{00A0}' || c == '\U{1680}' || ('\U{2000}' <= c <= '\U{200A}')
    || c == '\U{2028}' || c == '\U{2029}' || c == '\U{202F}' || c == '\U{205F}'
    || c == '\U{3000}' || c == '\U{FEFF}'
  }

  /** `IsTrimmable` is exactly ECMAScript's WhiteSpace and LineTerminator, as the standard lists them. */
  lemma TrimmableIsEcmaWhiteSpace(c: char)
    ensures IsTrimmable(c) <==> c in EcmaWhiteSpace || c in EcmaLineTerminators
  {
  }

  predicate NoMarkers(s: string)
  {
    forall i :: 0 <= i < |s| ==> !IsMarker(s[i])
  }

  /** `replace(/[#*_~`]/g, '')`. */
  function StripMarkers(s: string): (r: string)
    ensures NoMarkers(r)
    ensures |r| <= |s|
  {
    if s == [] then []
    else (if IsMarker(s[0]) then [] else [s[0]]) + StripMarkers(s[1..])
  }

  /** Stripping works piece by piece: it deletes each marker where it stands and nothing else. */
  lemma {:induction false} StripMarkersAppend(a: string, b: string)
    ensures StripMarkers(a + b) == StripMarkers(a) + StripMarkers(b)
  {
    if a != [] {
      assert (a + b)[0] == a[0];
      assert (a + b)[1..] == a[1..] + b;
      StripMarkersAppend(a[1..], b);
    } else {
      assert a + b == b;
    }
  }

  /** Stripping keeps the other characters in their order. */
  lemma {:induction false} StripMarkersKeepsOrder(s: string)
    ensures IsSubsequence(StripMarkers(s), s)
  {
    if s != [] {
      StripMarkersKeepsOrder(s[1..]);
      var r := StripMarkers(s);
      if IsMarker(s[0]) {
        assert r == StripMarkers(s[1..]);
        if r != [] {
          assert !IsMarker(r[0]);
        }
      } else {
        assert r == [s[0]] + StripMarkers(s[1..]);
        assert r[1..] == StripMarkers(s[1..]);
      }
    }
  }

  /** Stripping keeps every other character as often as it occurs. */
  lemma {:induction false} StripMarkersCounts(s: string, c: char)
    ensures multiset(StripMarkers(s))[c] == if IsMarker(c) then 0 else multiset(s)[c]
  {
    if s != [] {
      StripMarkersCounts(s[1..], c);
      assert s == [s[0]] + s[1..];
      assert multiset(s) == multiset([s[0]]) + multiset(s[1..]);
    }
  }

  /** Stripping changes a string exactly when it holds a marker. */
  lemma {:induction false} StripMarkersIdentity(s: string)
    ensures StripMarkers(s) == s <==> NoMarkers(s)
  {
    if s != [] && NoMarkers(s) {
      assert NoMarkers(s[1..]) by {
        forall i | 0 <= i < |s[1..]| ensures !IsMarker(s[1..][i]) {
          assert s[1..][i] == s[i + 1];
        }
      }
      StripMarkersIdentity(s[1..]);
    }
  }

  /** How many whitespace characters `s` starts with. */
  function LeadingSpace(s: string): (n: nat)
    ensures n <= |s|
    ensures forall i :: 0 <= i < n ==> IsTrimmable(s[i])
    ensures n == |s| || !IsTrimmable(s[n])
  {
    if s != [] && IsTrimmable(s[0]) then 1 + LeadingSpace(s[1..]) else 0
  }

  /** Where the whitespace that `s` ends with begins. */
  function TrailingSpace(s: string): (n: nat)
    ensures n <= |s|
    ensures forall i :: n <= i < |s| ==> IsTrimmable(s[i])
    ensures n == 0 || !IsTrimmable(s[n - 1])
  {
    if s != [] && IsTrimmable(s[|s| - 1]) then TrailingSpace(s[..|s| - 1]) else |s|
  }

  /** `trim`: the slice between the leading and the trailing whitespace. */
  function Trim(s: string): (r: string)
    ensures |r| <= |s|
    ensures r == [] || (!IsTrimmable(r[0]) && !IsTrimmable(r[|r| - 1]))
  {
    var t := s[LeadingSpace(s)..];
    t[..TrailingSpace(t)]
  }

  /** Trimming keeps one contiguous slice of its input. */
  lemma TrimIsSlice(s: string)
    ensures var i := LeadingSpace(s);
      var r := Trim(s);
      i + |r| <= |s| && r == s[i..i + |r|]
  {
  }

  /** What trimming drops around that slice is whitespace only. */
  lemma TrimDropsOnlyWhitespace(s: string)
    ensures var i := LeadingSpace(s);
      var r := Trim(s);
      && i + |r| <= |s|
      && (forall j :: 0 <= j < i ==> IsTrimmable(s[j]))
      && (forall j :: i + |r| <= j < |s| ==> IsTrimmable(s[j]))
  {
    var i := LeadingSpace(s);
    var t := s[i..];
    var r := Trim(s);
    forall j | i + |r| <= j < |s| ensures IsTrimmable(s[j]) {
      assert s[j] == t[j - i];
    }
  }

  /** Text that neither starts nor ends with whitespace is left as it is. */
  lemma TrimKeepsTrimmed(s: string)
    requires s == [] || (!IsTrimmable(s[0]) && !IsTrimmable(s[|s| - 1]))
    ensures Trim(s) == s
  {
  }

  /** `cleanText`: `undefined` and `""` give `""`; otherwise strip the markers and trim. */
  function CleanText(text: Option<string>): (r: string)
    ensures text == None || text == Some("") ==> r == ""
    ensures NoMarkers(r)
    ensures r == [] || (!IsTrimmable(r[0]) && !IsTrimmable(r[|r| - 1]))
    ensures text.Some? ==> |r| <= |text.value|
  {
    match text
    case None => ""
    case Some(t) => if t == "" then "" else Trim(StripMarkers(t))
  }

  /** The `!text` guard matters only for `undefined`: every string, `""` included, is cleaned by stripping, then trimming. */
  lemma CleanTextOfString(t: string)
    ensures CleanText(Some(t)) == Trim(StripMarkers(t))
  {
    if t == "" {
      assert StripMarkers(t) == [];
    }
  }

  /** The cleaned reply is a slice of `s`, the reply with its markers deleted: only surrounding whitespace is lost. */
  lemma CleanTextIsSlice(t: string, s: string)
    requires s == StripMarkers(t)
    ensures var i := LeadingSpace(s);
      var r := CleanText(Some(t));
      i + |r| <= |s| && r == s[i..i + |r|]
  {
    var r := CleanText(Some(t));
    assert r == Trim(s) by { CleanTextOfString(t); }
    TrimIsSlice(s);
  }

  /** Cleaning an already cleaned text changes nothing. */
  lemma {:induction false} CleanTextIdempotent(text: Option<string>)
    ensures CleanText(Some(CleanText(text))) == CleanText(text)
  {
    var r := CleanText(text);
    if r != "" {
      StripMarkersIdentity(r);
    }
  }

  // ---------------------------------------------------------------------------------------
  // runSOCChat: the request contents
  // ---------------------------------------------------------------------------------------

  /** A prior turn as the chat view keeps it. */
  datatype ChatTurn = ChatTurn(role: string, text: string)

  datatype Part = Part(text: string)

  /** One entry of the request's `contents`. */
  datatype Content = Content(role: string, parts: seq<Part>)

  /** The service's role vocabulary: `assistant` becomes `model`, every other role `user`. */
  function ServiceRole(role: string): (r: string)
    ensures r == "model" <==> role == "assistant"
    ensures r == "user" <==> role != "assistant"
  {
    if role == "assistant" then "model" else "user"
  }

  /** `history.map(...)`: one content per turn, in order, with the turn's text as its one part. */
  function TurnsToContents(history: seq<ChatTurn>): (r: seq<Content>)
    ensures |r| == |history|
    ensures forall i :: 0 <= i < |history| ==>
      r[i] == Content(ServiceRole(history[i].role), [Part(history[i].text)])
  {
    if history == [] then []
    else [Content(ServiceRole(history[0].role), [Part(history[0].text)])] + TurnsToContents(history[1..])
  }

  /** Mapping a conversation is mapping its pieces. */
  lemma TurnsToContentsAppend(a: seq<ChatTurn>, b: seq<ChatTurn>)
    ensures TurnsToContents(a + b) == TurnsToContents(a) + TurnsToContents(b)
  {
  }

  /** The `contents` of a chat request: the mapped history, then the new message as a user turn. */
  function ChatContents(history: seq<ChatTurn>, message: string): (r: seq<Content>)
    ensures |r| == |history| + 1
    ensures forall i :: 0 <= i < |history| ==>
      && (r[i].role == "model" <==> history[i].role == "assistant")
      && (r[i].role == "user" <==> history[i].role != "assistant")
      && r[i].parts == [Part(history[i].text)]
    ensures r[|history|] == Content("user", [Part(message)])
  {
    TurnsToContents(history) + [Content("user", [Part(message)])]
  }

  /** A follow-up request extends the previous one: the old message and the reply become history. */
  lemma FollowUpExtendsRequest(history: seq<ChatTurn>, message: string, reply: string, next: string)
    ensures ChatContents(history + [ChatTurn("user", message), ChatTurn("assistant", reply)], next)
      == ChatContents(history, message) + [Content("model", [Part(reply)]), Content("user", [Part(next)])]
  {
  }

  // ---------------------------------------------------------------------------------------
  // runCodeAudit and runCloudGuard: parsing the reply, and the fallbacks
  // ---------------------------------------------------------------------------------------

  datatype Vulnerability = Vulnerability(title: string, severity: string, impact: string, fixSnippet: string)

  datatype CodeAuditReport = CodeAuditReport(
    vulnerabilities: seq<Vulnerability>,
    summary: string,
    fullRemediatedCode: string)

  datatype CloudFinding = CloudFinding(title: string, severity: string, blastRadius: string, remediation: string)

  datatype CloudReport = CloudReport(score: real, findings: seq<CloudFinding>, summary: string)

  /** The outcome of `JSON.parse`: a value, or the exception it throws. */
  datatype Parse<V> = Parsed(value: V) | SyntaxError

  /** What the caller receives: the parsed value, or the fixed fallback report. */
  datatype Reply<V, F> = Decoded(value: V) | Fallback(report: F)

  /** `response.text || '{}'`: an absent or empty reply is replaced by an empty object. */
  function ParseSource(reply: Option<string>): (t: string)
    ensures t != ""
    ensures reply.Some? && reply.value != "" ==> t == reply.value
    ensures reply == None || reply == Some("") ==> t == "{}"
  {
    match reply
    case Some(text) => if text != "" then text else "{}"
    case None => "{}"
  }

  /** `runCodeAudit` after the call: the parsed reply, or, when it does not parse, no findings, "Parsing Error" and the submitted code. */
  function CodeAuditReply<V>(code: string, reply: Option<string>, parse: string -> Parse<V>): (r: Reply<V, CodeAuditReport>)
    ensures r.Fallback? <==> parse(ParseSource(reply)).SyntaxError?
    ensures r.Decoded? ==> r.value == parse(ParseSource(reply)).value
    ensures r.Fallback? ==> r.report.vulnerabilities == [] && r.report.summary == "Parsing Error"
    ensures r.Fallback? ==> r.report.fullRemediatedCode == code
  {
    match parse(ParseSource(reply))
    case Parsed(v) => Decoded(v)
    case SyntaxError => Fallback(CodeAuditReport([], "Parsing Error", code))
  }

  /** `runCloudGuard` after the call: the parsed reply, or score 0, no findings and "Analysis Failed". */
  function CloudGuardReply<V>(reply: Option<string>, parse: string -> Parse<V>): (r: Reply<V, CloudReport>)
    ensures r.Fallback? <==> parse(ParseSource(reply)).SyntaxError?
    ensures r.Decoded? ==> r.value == parse(ParseSource(reply)).value
    ensures r.Fallback? ==> r.report == CloudReport(0.0, [], "Analysis Failed")
  {
    match parse(ParseSource(reply))
    case Parsed(v) => Decoded(v)
    case SyntaxError => Fallback(CloudReport(0.0, [], "Analysis Failed"))
  }

  /** An absent or empty reply never reaches a fallback: it parses as `{}`. */
  lemma EmptyReplyIsNotAFailure<V>(code: string, reply: Option<string>, parse: string -> Parse<V>)
    requires reply == None || reply == Some("")
    requires parse("{}").Parsed?
    ensures CodeAuditReply(code, reply, parse) == Decoded(parse("{}").value)
    ensures CloudGuardReply(reply, parse) == Decoded(parse("{}").value)
  {
  }

  // ---------------------------------------------------------------------------------------
  // runIntelScan and its three wrappers: the prompt
  // ---------------------------------------------------------------------------------------

  datatype ReconKind = Url | User | Breach

  /** The `type` argument as it appears in the prompt: one word of capital letters. */
  function KindLabel(kind: ReconKind): (r: string)
    ensures r != []
    ensures forall i :: 0 <= i < |r| ==> 'A' <= r[i] <= 'Z'
  {
    match kind
    case Url => "URL"
    case User => "USER"
    case Breach => "BREACH"
  }

  const IntelHeader: string := " \nMODULE: INTEL CENTER \nRECON TYPE: "
  const InputHeader: string := " \nINPUT: "

  predicate HasPrefix(prefix: string, s: string)
  {
    |prefix| <= |s| && s[..|prefix|] == prefix
  }

  /** The prompt `runIntelScan` sends: it opens with the system text and ends with the input, unchanged. */
  function IntelPrompt(systemCore: string, kind: ReconKind, input: string): (p: string)
    ensures HasPrefix(systemCore + IntelHeader, p)
    ensures |input| <= |p| && p[|p| - |input|..] == input
  {
    systemCore + IntelHeader + KindLabel(kind) + InputHeader + input
  }

  datatype IntelRequest = IntelRequest(kind: ReconKind, input: string)

  /** Reads the kind and the input back out of a prompt: the inverse of `IntelPrompt`. */
  function ReadIntelPrompt(systemCore: string, prompt: string): Option<IntelRequest>
  {
    var head := systemCore + IntelHeader;
    if !HasPrefix(head, prompt) then None
    else
      var rest := prompt[|head|..];
      if HasPrefix(KindLabel(Url) + InputHeader, rest) then Some(IntelRequest(Url, rest[|KindLabel(Url) + InputHeader|..]))
      else if HasPrefix(KindLabel(User) + InputHeader, rest) then Some(IntelRequest(User, rest[|KindLabel(User) + InputHeader|..]))
      else if HasPrefix(KindLabel(Breach) + InputHeader, rest) then Some(IntelRequest(Breach, rest[|KindLabel(Breach) + InputHeader|..]))
      else None
  }

  /** The prompt names its kind and carries its input unchanged: both can be read back. */
  lemma IntelPromptRoundTrip(systemCore: string, kind: ReconKind, input: string)
    ensures ReadIntelPrompt(systemCore, IntelPrompt(systemCore, kind, input)) == Some(IntelRequest(kind, input))
  {
    var head := systemCore + IntelHeader;
    var p := IntelPrompt(systemCore, kind, input);
    var tail := KindLabel(kind) + InputHeader + input;
    assert p == head + tail;
    assert p[..|head|] == head;
    assert p[|head|..] == tail;
    var lead := KindLabel(kind) + InputHeader;
    assert tail == lead + input;
    assert tail[..|lead|] == lead;
    assert tail[|lead|..] == input;
    if kind == User {
      assert tail[1] != (KindLabel(Url) + InputHeader)[1];
    }
    if kind == Breach {
      assert tail[0] != (KindLabel(Url) + InputHeader)[0];
      assert tail[0] != (KindLabel(User) + InputHeader)[0];
    }
  }

  /** Two different scans never send the same prompt. */
  lemma IntelPromptInjective(systemCore: string, k1: ReconKind, i1: string, k2: ReconKind, i2: string)
    requires IntelPrompt(systemCore, k1, i1) == IntelPrompt(systemCore, k2, i2)
    ensures k1 == k2 && i1 == i2
  {
    IntelPromptRoundTrip(systemCore, k1, i1);
    IntelPromptRoundTrip(systemCore, k2, i2);
  }

  /** `runUrlAnalysis`: an intel scan of kind URL. */
  function UrlAnalysisPrompt(systemCore: string, url: string): (p: string)
    ensures ReadIntelPrompt(systemCore, p) == Some(IntelRequest(Url, url))
  {
    IntelPromptRoundTrip(systemCore, Url, url);
    IntelPrompt(systemCore, Url, url)
  }

  /** `runOsintSearch`: an intel scan of kind USER. */
  function OsintSearchPrompt(systemCore: string, query: string): (p: string)
    ensures ReadIntelPrompt(systemCore, p) == Some(IntelRequest(User, query))
  {
    IntelPromptRoundTrip(systemCore, User, query);
    IntelPrompt(systemCore, User, query)
  }

  /** `checkDataBreach`: an intel scan of kind BREACH. */
  function DataBreachPrompt(systemCore: string, identifier: string): (p: string)
    ensures ReadIntelPrompt(systemCore, p) == Some(IntelRequest(Breach, identifier))
  {
    IntelPromptRoundTrip(systemCore, Breach, identifier);
    IntelPrompt(systemCore, Breach, identifier)
  }

  /** The labels the wrappers put in the prompt. */
  lemma WrapperLabels(systemCore: string, s: string)
    ensures UrlAnalysisPrompt(systemCore, s) == systemCore + IntelHeader + "URL" + InputHeader + s
    ensures OsintSearchPrompt(systemCore, s) == systemCore + IntelHeader + "USER" + InputHeader + s
    ensures DataBreachPrompt(systemCore, s) == systemCore + IntelHeader + "BREACH" + InputHeader + s
  {
  }
}
