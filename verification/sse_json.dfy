/**
 * The JSON text `json.Marshal` produces for the SSE payloads: the event
 * structs of types.go with their `json:"..."` tags (embedded base first,
 * `omitempty` fields left out when empty), and Go's string escaping with
 * HTML-safe escapes on. A string decoder is the escaping's partner: decoding
 * an escaped string gives it back.
 */
module SseJson {
  import opened Wrappers
  import opened SseTypes

  /** A line break as the SSE parser sees one. */
  predicate IsLineBreak(c: char) {
    c == '\n' || c == '\r'
  }

  /** `s` fits on one line of an SSE stream. */
  predicate SingleLine(s: string) {
    forall i :: 0 <= i < |s| ==> !IsLineBreak(s[i])
  }

  lemma SingleLineConcat(a: string, b: string)
    requires SingleLine(a) && SingleLine(b)
    ensures SingleLine(a + b)
  {
    forall i | 0 <= i < |a + b| ensures !IsLineBreak((a + b)[i]) {
      if i >= |a| {
        assert (a + b)[i] == b[i - |a|];
      }
    }
  }

  /** Every text in `items` fits on one line. */
  predicate AllSingleLine(items: seq<string>) {
    forall i :: 0 <= i < |items| ==> SingleLine(items[i])
  }

  const HexDigits := "0123456789abcdef"

  /** The lower-case hex digit of `n`. */
  function Hex(n: int): char
    requires 0 <= n < 16
  {
    HexDigits[n]
  }

  /** The value of a hex digit of either case, or -1. */
  function HexValue(c: char): int {
    if '0' <= c <= '9' then c as int - '0' as int
    else if 'a' <= c <= 'f' then c as int - 'a' as int + 10
    else if 'A' <= c <= 'F' then c as int - 'A' as int + 10
    else -1
  }

  lemma HexValueOfHex(n: int)
    requires 0 <= n < 16
    ensures HexValue(Hex(n)) == n
  {
  }

  /** Characters `json.Marshal` writes as they are (its HTML-safe set, plus all non-ASCII but U+2028/U+2029). */
  predicate IsPlain(c: char) {
    && c as int >= 0x20
    && c != '"' && c != '\\' && c != '<' && c != '>' && c != '&'
    && c != '\U{2028}' && c != '\U{2029}'
  }

  /** How one character is written inside a JSON string. */
  function EscapeChar(c: char): string {
    if IsPlain(c) then [c]
    else if c == '"' then "\\\""
    else if c == '\\' then "\\\\"
    else if c as int == 0x08 then "\\b"
    else if c as int == 0x0C then "\\f"
    else if c == '\n' then "\\n"
    else if c == '\r' then "\\r"
    else if c == '\t' then "\\t"
    else if c == '\U{2028}' then "\\u2028"
    else if c == '\U{2029}' then "\\u2029"
    else ['\\', 'u', '0', '0', Hex(c as int / 16), Hex(c as int % 16)]
  }

  /** The body of a JSON string literal for `s`. */
  function Escape(s: string): string {
    if s == [] then [] else EscapeChar(s[0]) + Escape(s[1..])
  }

  /** A JSON string literal. */
  function Quote(s: string): string {
    "\"" + Escape(s) + "\""
  }

  /** Escaped text never holds a line break: control characters become escapes. */
  lemma {:induction false} EscapeSingleLine(s: string)
    ensures SingleLine(Escape(s))
  {
    if s != [] {
      var c := s[0];
      assert SingleLine(EscapeChar(c)) by {
        if !IsPlain(c) && c != '"' && c != '\\' && c as int != 0x08 && c as int != 0x0C
           && c != '\n' && c != '\r' && c != '\t' && c != '\U{2028}' && c != '\U{2029}' {
          assert 0 <= c as int < 0x80;
        }
      }
      EscapeSingleLine(s[1..]);
      SingleLineConcat(EscapeChar(c), Escape(s[1..]));
    }
  }

  lemma QuoteSingleLine(s: string)
    ensures SingleLine(Quote(s))
  {
    EscapeSingleLine(s);
    SingleLineConcat("\"", Escape(s));
    SingleLineConcat("\"" + Escape(s), "\"");
  }

  function Prepend(c: char, rest: Option<string>): Option<string> {
    match rest
    case Some(r) => Some([c] + r)
    case None => None
  }

  /** The code unit a `\uXXXX` escape spells, when `h` is four hex digits. */
  function HexValue4(h: string): int
    requires |h| == 4
  {
    var a, b, c, d := HexValue(h[0]), HexValue(h[1]), HexValue(h[2]), HexValue(h[3]);
    if a < 0 || b < 0 || c < 0 || d < 0 then -1 else ((a * 16 + b) * 16 + c) * 16 + d
  }

  /**
   * Decodes the body of a JSON string literal (RFC 8259, section 7). Unpaired
   * and paired surrogate escapes are refused: `json.Marshal` never writes them.
   */
  function Unescape(t: string): Option<string>
    decreases |t|
  {
    if t == [] then Some([])
    else if t[0] == '"' || (t[0] as int) < 0x20 then None
    else if t[0] != '\\' then Prepend(t[0], Unescape(t[1..]))
    else if |t| < 2 then None
    else if t[1] == '"' then Prepend('"', Unescape(t[2..]))
    else if t[1] == '\\' then Prepend('\\', Unescape(t[2..]))
    else if t[1] == '/' then Prepend('/', Unescape(t[2..]))
    else if t[1] == 'b' then Prepend(0x08 as char, Unescape(t[2..]))
    else if t[1] == 'f' then Prepend(0x0C as char, Unescape(t[2..]))
    else if t[1] == 'n' then Prepend('\n', Unescape(t[2..]))
    else if t[1] == 'r' then Prepend('\r', Unescape(t[2..]))
    else if t[1] == 't' then Prepend('\t', Unescape(t[2..]))
    else if t[1] == 'u' && |t| >= 6 then
      var v := HexValue4(t[2..6]);
      if 0 <= v < 0xD800 || 0xE000 <= v < 0x10000 then Prepend(v as char, Unescape(t[6..]))
      else None
    else None
  }

  /** A two-character escape `\\x` decodes to `c`, then the rest. */
  lemma UnescapeShort(e: string, rest: string, c: char)
    requires |e| == 2 && e[0] == '\\' && e[1] in "\"\\bfnrt"
    requires c == (if e[1] == '"' then '"' else if e[1] == '\\' then '\\' else if e[1] == 'b' then 0x08 as char
                   else if e[1] == 'f' then 0x0C as char else if e[1] == 'n' then '\n'
                   else if e[1] == 'r' then '\r' else '\t')
    ensures Unescape(e + rest) == Prepend(c, Unescape(rest))
  {
    assert (e + rest)[..2] == e;
    assert (e + rest)[2..] == rest;
  }

  /** A `\\uXXXX` escape spelling `n`, outside the surrogates, decodes to that character, then the rest. */
  lemma UnescapeUnicode(e: string, rest: string, n: int)
    requires |e| == 6 && e[0] == '\\' && e[1] == 'u' && HexValue4(e[2..6]) == n
    requires 0 <= n < 0xD800
    ensures Unescape(e + rest) == Prepend(n as char, Unescape(rest))
  {
    assert (e + rest)[..6] == e;
    assert (e + rest)[2..6] == e[2..6];
    assert (e + rest)[6..] == rest;
  }

  lemma UnescapeEscapeChar(c: char, rest: string)
    ensures Unescape(EscapeChar(c) + rest) == Prepend(c, Unescape(rest))
  {
    var e := EscapeChar(c);
    if IsPlain(c) {
      assert (e + rest)[1..] == rest;
    } else if c == '"' || c == '\\' || c as int == 0x08 || c as int == 0x0C
           || c == '\n' || c == '\r' || c == '\t' {
      UnescapeShort(e, rest, c);
    } else if c == '\U{2028}' || c == '\U{2029}' {
      UnescapeSeparator(c, rest);
    } else {
      UnescapeHexEscape(c, rest);
    }
  }

  /** U+2028 and U+2029, written `\\u2028` and `\\u2029`, decode back. */
  lemma UnescapeSeparator(c: char, rest: string)
    requires c == '\U{2028}' || c == '\U{2029}'
    ensures Unescape(EscapeChar(c) + rest) == Prepend(c, Unescape(rest))
  {
    var e := EscapeChar(c);
    HexValueOfHex(2);
    HexValueOfHex(0);
    HexValueOfHex(c as int % 16);
    assert e[2..6] == ['2', '0', '2', Hex(c as int % 16)];
    UnescapeUnicode(e, rest, c as int);
  }

  /** The other escaped characters, written `\\u00XX`, decode back. */
  lemma UnescapeHexEscape(c: char, rest: string)
    requires !IsPlain(c) && c != '\U{2028}' && c != '\U{2029}'
    requires !(c == '"' || c == '\\' || c as int == 0x08 || c as int == 0x0C || c == '\n' || c == '\r' || c == '\t')
    ensures Unescape(EscapeChar(c) + rest) == Prepend(c, Unescape(rest))
  {
    var e := EscapeChar(c);
    var n := c as int;
    assert 0 <= n < 0x80;
    assert e[2..6] == ['0', '0', Hex(n / 16), Hex(n % 16)];
    HexValueOfHex(n / 16);
    HexValueOfHex(n % 16);
    UnescapeUnicode(e, rest, n);
  }

  /** Decoding the escaped text gives the original string back. */
  lemma {:induction false} UnescapeEscape(s: string)
    ensures Unescape(Escape(s)) == Some(s)
  {
    if s != [] {
      UnescapeEscape(s[1..]);
      UnescapeEscapeChar(s[0], Escape(s[1..]));
      assert [s[0]] + s[1..] == s;
    }
  }

  /** Distinct strings are written as distinct literals. */
  lemma QuoteInjective(s: string, t: string)
    ensures Quote(s) == Quote(t) <==> s == t
  {
    if Quote(s) == Quote(t) {
      assert Escape(s) == Quote(s)[1..|Quote(s)| - 1];
      assert Escape(t) == Quote(t)[1..|Quote(t)| - 1];
      UnescapeEscape(s);
      UnescapeEscape(t);
    }
  }

  /** Comma-separated JSON texts. */
  function Join(items: seq<string>): string {
    if items == [] then ""
    else if |items| == 1 then items[0]
    else items[0] + "," + Join(items[1..])
  }

  function Object(members: seq<string>): string {
    "{" + Join(members) + "}"
  }

  function Array(items: seq<string>): string {
    "[" + Join(items) + "]"
  }

  function Member(key: string, value: string): string {
    Quote(key) + ":" + value
  }

  /** `AIBaseEvent`'s members: `id` and `session_id`, both `omitempty`. */
  function BaseMembers(b: BaseEvent): seq<string> {
    OptionalMember("id", b.id) + OptionalMember("session_id", b.sessionId)
  }

  /** `CitationReference`: `text` and `source`, both `omitempty`. */
  function EncodeRef(r: CitationReference): string {
    Object(OptionalMember("text", r.text) + OptionalMember("source", r.source))
  }

  function EncodeRefs(refs: seq<CitationReference>): seq<string> {
    if refs == [] then [] else [EncodeRef(refs[0])] + EncodeRefs(refs[1..])
  }

  /** The members after the base and `type`, one struct at a time. */
  function PayloadMembers(ev: AIEvent): seq<string> {
    match ev
    case AIMessageStart(_, _, role) => [Member("message", Object([Member("role", Quote(role.Name()))]))]
    case AIMessageDelta(_, _, delta) => [Member("delta", Quote(delta))]
    case AIMessageEnd(_, _, reason) => [Member("finish_reason", Quote(reason.Name()))]
    case AIMessageCitation(_, _, refs) => [Member("refs", Array(EncodeRefs(refs)))]
    case AIError(_, _, message, code, retryable) => ErrorMembers(message, code, retryable)
  }

  /** `AIError`'s own members: `message`, then `code` and `retryable`, both `omitempty`. */
  function ErrorMembers(message: string, code: string, retryable: bool): seq<string> {
    [Member("message", Quote(message))]
    + OptionalMember("code", code)
    + RetryableMember(retryable)
  }

  /** `retryable`, left out when false. */
  function RetryableMember(retryable: bool): seq<string> {
    if retryable then [Member("retryable", "true")] else []
  }

  /** `json.Marshal(ev)` for an event struct. */
  function EncodeEvent(ev: AIEvent): string {
    Object(BaseMembers(ev.base) + [Member("type", Quote(ev.eventType.Name()))] + PayloadMembers(ev))
  }

  /**
   * The `v any` that `Emit` is handed: an event struct, a `*AIBaseEvent`, or
   * a value of some other Go type that `json.Marshal` cannot encode (a
   * channel, a function, ...), named by its type.
   */
  datatype Value = EventValue(ev: AIEvent) | BaseValue(base: BaseEvent) | Unsupported(goType: string)

  /** `json.Marshal(v)`. */
  function Marshal(v: Value): Result<string> {
    match v
    case EventValue(ev) => Ok(EncodeEvent(ev))
    case BaseValue(b) => Ok(Object(BaseMembers(b)))
    case Unsupported(t) => Err("json: unsupported type: " + t)
  }

  lemma {:induction false} JoinSingleLine(items: seq<string>)
    requires forall i :: 0 <= i < |items| ==> SingleLine(items[i])
    ensures SingleLine(Join(items))
  {
    if |items| > 1 {
      JoinSingleLine(items[1..]);
      SingleLineConcat(items[0], ",");
      SingleLineConcat(items[0] + ",", Join(items[1..]));
    }
  }

  lemma ObjectSingleLine(members: seq<string>)
    requires AllSingleLine(members)
    ensures SingleLine(Object(members))
  {
    JoinSingleLine(members);
    SingleLineConcat("{", Join(members));
    SingleLineConcat("{" + Join(members), "}");
  }

  lemma MemberSingleLine(key: string, value: string)
    requires SingleLine(value)
    ensures SingleLine(Member(key, value))
  {
    QuoteSingleLine(key);
    SingleLineConcat(Quote(key), ":");
    SingleLineConcat(Quote(key) + ":", value);
  }

  lemma QuotedMemberSingleLine(key: string, value: string)
    ensures SingleLine(Member(key, Quote(value)))
  {
    QuoteSingleLine(value);
    MemberSingleLine(key, Quote(value));
  }

  /** The list of one `omitempty` string member: empty when the value is "". */
  function OptionalMember(key: string, value: string): seq<string> {
    if value == "" then [] else [Member(key, Quote(value))]
  }

  lemma OptionalMemberSingleLine(key: string, value: string)
    ensures AllSingleLine(OptionalMember(key, value))
  {
    if value != "" {
      QuotedMemberSingleLine(key, value);
      AllSingleLineOne(Member(key, Quote(value)));
    }
  }

  lemma BaseMembersSingleLine(b: BaseEvent)
    ensures AllSingleLine(BaseMembers(b))
  {
    OptionalMemberSingleLine("id", b.id);
    OptionalMemberSingleLine("session_id", b.sessionId);
    AllSingleLineConcat(OptionalMember("id", b.id), OptionalMember("session_id", b.sessionId));
  }

  lemma EncodeRefSingleLine(r: CitationReference)
    ensures SingleLine(EncodeRef(r))
  {
    OptionalMemberSingleLine("text", r.text);
    OptionalMemberSingleLine("source", r.source);
    AllSingleLineConcat(OptionalMember("text", r.text), OptionalMember("source", r.source));
    ObjectSingleLine(OptionalMember("text", r.text) + OptionalMember("source", r.source));
  }

  lemma {:induction false} EncodeRefsSingleLine(refs: seq<CitationReference>)
    ensures |EncodeRefs(refs)| == |refs|
    ensures AllSingleLine(EncodeRefs(refs))
  {
    if refs != [] {
      EncodeRefSingleLine(refs[0]);
      EncodeRefsSingleLine(refs[1..]);
      AllSingleLineOne(EncodeRef(refs[0]));
      AllSingleLineConcat([EncodeRef(refs[0])], EncodeRefs(refs[1..]));
    }
  }

  lemma RefsArraySingleLine(refs: seq<CitationReference>)
    ensures SingleLine(Array(EncodeRefs(refs)))
  {
    EncodeRefsSingleLine(refs);
    JoinSingleLine(EncodeRefs(refs));
    SingleLineConcat("[", Join(EncodeRefs(refs)));
    SingleLineConcat("[" + Join(EncodeRefs(refs)), "]");
  }

  lemma AllSingleLineOne(m: string)
    requires SingleLine(m)
    ensures AllSingleLine([m])
  {
  }

  lemma StartMemberSingleLine(role: Role)
    ensures SingleLine(Member("message", Object([Member("role", Quote(role.Name()))])))
  {
    var inner := Member("role", Quote(role.Name()));
    QuotedMemberSingleLine("role", role.Name());
    ObjectSingleLine([inner]);
    MemberSingleLine("message", Object([inner]));
  }

  lemma RefsMemberSingleLine(refs: seq<CitationReference>)
    ensures SingleLine(Member("refs", Array(EncodeRefs(refs))))
  {
    RefsArraySingleLine(refs);
    MemberSingleLine("refs", Array(EncodeRefs(refs)));
  }

  lemma PayloadMembersSingleLine(ev: AIEvent)
    ensures AllSingleLine(PayloadMembers(ev))
  {
    match ev
    case AIMessageStart(_, _, role) =>
      StartMemberSingleLine(role);
      AllSingleLineOne(Member("message", Object([Member("role", Quote(role.Name()))])));
    case AIMessageDelta(_, _, delta) =>
      QuotedMemberSingleLine("delta", delta);
      AllSingleLineOne(Member("delta", Quote(delta)));
    case AIMessageEnd(_, _, reason) =>
      QuotedMemberSingleLine("finish_reason", reason.Name());
      AllSingleLineOne(Member("finish_reason", Quote(reason.Name())));
    case AIMessageCitation(_, _, refs) =>
      RefsMemberSingleLine(refs);
      AllSingleLineOne(Member("refs", Array(EncodeRefs(refs))));
    case AIError(_, _, message, code, retryable) =>
      ErrorMembersSingleLine(message, code, retryable);
  }

  lemma RetryableMemberSingleLine(retryable: bool)
    ensures AllSingleLine(RetryableMember(retryable))
  {
    if retryable {
      assert SingleLine("true");
      MemberSingleLine("retryable", "true");
      AllSingleLineOne(Member("retryable", "true"));
    }
  }

  lemma ErrorMembersSingleLine(message: string, code: string, retryable: bool)
    ensures AllSingleLine(ErrorMembers(message, code, retryable))
  {
    var m1 := Member("message", Quote(message));
    QuotedMemberSingleLine("message", message);
    AllSingleLineOne(m1);
    OptionalMemberSingleLine("code", code);
    RetryableMemberSingleLine(retryable);
    AllSingleLineConcat([m1], OptionalMember("code", code));
    AllSingleLineConcat([m1] + OptionalMember("code", code), RetryableMember(retryable));
  }

  lemma AllSingleLineConcat(a: seq<string>, b: seq<string>)
    requires AllSingleLine(a) && AllSingleLine(b)
    ensures AllSingleLine(a + b)
  {
    forall i | 0 <= i < |a + b| ensures SingleLine((a + b)[i]) {
      if i >= |a| {
        assert (a + b)[i] == b[i - |a|];
      }
    }
  }

  /** An event's JSON object is one line. */
  lemma EncodeEventSingleLine(ev: AIEvent)
    ensures SingleLine(EncodeEvent(ev))
  {
    var base, tm, pm := BaseMembers(ev.base), Member("type", Quote(ev.eventType.Name())), PayloadMembers(ev);
    BaseMembersSingleLine(ev.base);
    QuotedMemberSingleLine("type", ev.eventType.Name());
    AllSingleLineOne(tm);
    PayloadMembersSingleLine(ev);
    AllSingleLineConcat(base, [tm]);
    AllSingleLineConcat(base + [tm], pm);
    ObjectSingleLine(base + [tm] + pm);
  }

  /**
   * Whatever `json.Marshal` produces here fits on one line, so it can stand
   * after `data: ` without breaking the SSE framing.
   */
  lemma MarshalSingleLine(v: Value)
    ensures Marshal(v).Ok? ==> SingleLine(Marshal(v).value)
  {
    match v
    case EventValue(ev) =>
      EncodeEventSingleLine(ev);
    case BaseValue(b) =>
      BaseMembersSingleLine(b);
      ObjectSingleLine(BaseMembers(b));
    case Unsupported(_) =>
  }
}
