/** A frame as a JSON object, member by member; and that its encoding is that object, printed. */
module FrameObject {
  import opened Bytes
  import opened Turns
  import opened FrameJson

  datatype Leaf = String(s: Text) | Number(n: nat) | True | RawValue(raw: Text)

  datatype Value = Single(leaf: Leaf) | Group(entries: seq<(string, Leaf)>)

  type Entry = (string, Value)

  // ---------------------------------------------------------------- printing

  function PrintLeaf(v: Leaf): Text {
    match v
    case String(s) => Str(s)
    case Number(n) => Digits(n)
    case True => Ascii("true")
    case RawValue(raw) => Compact(raw, false, false)
  }

  function Name(name: string): Text {
    Ascii("\"") + Ascii(name) + Ascii("\":")
  }

  /** The leaves behind the first, each with its comma. */
  function PrintLeaves(entries: seq<(string, Leaf)>): Text {
    if entries == [] then []
    else Ascii(",") + Name(entries[0].0) + PrintLeaf(entries[0].1) + PrintLeaves(entries[1..])
  }

  function PrintValue(v: Value): Text {
    match v
    case Single(leaf) => PrintLeaf(leaf)
    case Group(entries) =>
      if entries == [] then Ascii("{}")
      else Ascii("{") + PrintLeaves(entries)[1..] + Ascii("}")
  }

  function PrintEntries(entries: seq<Entry>): Text {
    if entries == [] then []
    else Ascii(",") + Name(entries[0].0) + PrintValue(entries[0].1) + PrintEntries(entries[1..])
  }

  /** An object: its members with commas between, in braces. */
  function Print(entries: seq<Entry>): Text {
    if entries == [] then Ascii("{}") else Ascii("{") + PrintEntries(entries)[1..] + Ascii("}")
  }

  // ---------------------------------------------------------------- the object

  function Text1(name: string, s: Text): seq<Entry> {
    [(name, Single(String(s)))]
  }

  /** A member that is left out when empty. */
  function TextIfAny(name: string, s: Text): seq<Entry> {
    if s == [] then [] else [(name, Single(String(s)))]
  }

  function LeafIfAny(name: string, s: Text): seq<(string, Leaf)> {
    if s == [] then [] else [(name, String(s))]
  }

  function RawIfAny(name: string, raw: Text): seq<Entry> {
    if raw == [] then [] else [(name, Single(RawValue(raw)))]
  }

  function ErrorEntry(code: Text, message: Text, retryable: bool): Entry {
    ("error", Group([("code", String(code))] + LeafIfAny("message", message) + if retryable then [("retryable", True)] else []))
  }

  function TypeOf(body: FrameBody): string {
    match body
    case TurnStarted => "TurnStarted"
    case ToolCallRequested(_, _, _) => "ToolCallRequested"
    case ToolResultReceived(_, _, _, _) => "ToolResultReceived"
    case TurnCompleted(_, _) => "TurnCompleted"
    case TurnFailed(_, _) => "TurnFailed"
    case TurnCancelled => "TurnCancelled"
  }

  function BodyEntries(body: FrameBody): seq<Entry> {
    match body
    case ToolCallRequested(id, name, args) =>
      RawIfAny("content", args) + TextIfAny("toolName", name) + TextIfAny("toolCallID", id)
    case ToolResultReceived(id, name, output, error) =>
      RawIfAny("content", output) + TextIfAny("toolName", name) + TextIfAny("toolCallID", id)
      + if error.Some? then [ErrorEntry(error.value.code, error.value.message, error.value.retryable)] else []
    case TurnCompleted(result, finalSeq) =>
      [("completed", Group(LeafIfAny("result", result) + [("finalEventSeq", Number(finalSeq))]))]
    case TurnFailed(reason, message) =>
      [("failed", Group([("reason", String(reason))] + LeafIfAny("message", message))), ErrorEntry(reason, message, false)]
    case _ => []
  }

  function HeadEntries(id: Identity, f: Frame): seq<Entry> {
    Text1("version", Ascii("orka.harness.v1")) + Text1("type", Ascii(TypeOf(f.body)))
    + Text1("runtimeSessionID", id.session) + Text1("turnID", id.turn) + Text1("correlationID", id.correlation)
    + [("seq", Single(Number(f.seqNo)))]
  }

  function Backend(s: Stamp): seq<Entry> {
    if s.backend then [("metadata", Group([("backend", String(Ascii("foundry-classic")))]))] else []
  }

  function Entries(id: Identity, f: Frame, s: Stamp): seq<Entry> {
    HeadEntries(id, f) + (Text1("createdAt", s.createdAt) + TextIfAny("summary", s.summary)) + BodyEntries(f.body) + Backend(s)
  }

  // ---------------------------------------------------------------- the two agree

  lemma AsciiJoins(a: string, b: string)
    ensures Ascii(a + b) == Ascii(a) + Ascii(b)
  {
  }

  lemma {:induction false} PrintJoins(a: seq<Entry>, b: seq<Entry>)
    ensures PrintEntries(a + b) == PrintEntries(a) + PrintEntries(b)
    decreases |a|
  {
    if a == [] {
      assert a + b == b;
    } else {
      assert (a + b)[1..] == a[1..] + b;
      PrintJoins(a[1..], b);
    }
  }

  lemma {:induction false} LeavesJoin(a: seq<(string, Leaf)>, b: seq<(string, Leaf)>)
    ensures PrintLeaves(a + b) == PrintLeaves(a) + PrintLeaves(b)
    decreases |a|
  {
    if a == [] {
      assert a + b == b;
    } else {
      assert (a + b)[1..] == a[1..] + b;
      LeavesJoin(a[1..], b);
    }
  }

  /** Text that needs no escape. */
  lemma {:induction false} PlainEscape(s: Text)
    requires forall b | b in s :: 32 <= b < 127 && b != 34 && b != 92 && b != 38 && b != 60 && b != 62
    ensures Escape(s) == s
  {
    if s != [] {
      assert s[0] in s && forall b | b in s[1..] :: b in s;
      PlainEscape(s[1..]);
    }
  }

  lemma OneEntry(name: string, v: Value)
    ensures PrintEntries([(name, v)]) == Ascii(",") + Name(name) + PrintValue(v)
  {
    assert [(name, v)][1..] == [];
  }

  lemma OneLeaf(name: string, v: Leaf)
    ensures PrintLeaves([(name, v)]) == Ascii(",") + Name(name) + PrintLeaf(v)
  {
    assert [(name, v)][1..] == [];
  }

  lemma MemberName(key: string)
    ensures Ascii(",\"" + key + "\":") == Ascii(",") + Name(key)
  {
    var all := ",\"" + key + "\":";
    assert all == "," + "\"" + key + "\":";
    AsciiJoins("," + "\"" + key, "\":");
    AsciiJoins("," + "\"", key);
    AsciiJoins(",", "\"");
  }

  lemma MemberIsEntry(name: string, s: Text)
    ensures PrintEntries(TextIfAny(name, s)) == Member(name, s)
    ensures PrintLeaves(LeafIfAny(name, s)) == Member(name, s)
  {
    MemberName(name);
    OneEntry(name, Single(String(s)));
    OneLeaf(name, String(s));
  }

  lemma DropComma(x: Text)
    ensures (Ascii(",") + x)[1..] == x
  {
  }

  /** A group, without the comma before its first member. */
  lemma GroupPrints(name: string, first: (string, Leaf), rest: seq<(string, Leaf)>)
    ensures PrintEntries([(name, Group([first] + rest))])
         == (Ascii(",") + Name(name) + Ascii("{") + Name(first.0)) + PrintLeaf(first.1) + PrintLeaves(rest) + Ascii("}")
  {
    var all := [first] + rest;
    assert all[1..] == rest;
    var inner := Name(first.0) + PrintLeaf(first.1) + PrintLeaves(rest);
    assert PrintLeaves(all) == Ascii(",") + inner;
    DropComma(inner);
    OneEntry(name, Group(all));
    assert PrintValue(Group(all)) == Ascii("{") + inner + Ascii("}");
    Flatten(Ascii(",") + Name(name), Ascii("{"), Name(first.0), PrintLeaf(first.1), PrintLeaves(rest), Ascii("}"));
  }

  lemma Flatten(a: Text, b: Text, c: Text, d: Text, e: Text, f: Text)
    ensures a + (b + (c + d + e) + f) == (a + b + c) + d + e + f
  {
  }

  lemma ContentIsEntry(raw: Text)
    ensures PrintEntries(RawIfAny("content", raw)) == ContentMember(raw)
  {
    MemberName("content");
    assert ",\"content\":" == ",\"" + "content" + "\":";
    OneEntry("content", Single(RawValue(raw)));
  }

  lemma Opening(name: string, first: string)
    ensures Ascii(",\"" + name + "\":{\"" + first + "\":") == Ascii(",") + Name(name) + Ascii("{") + Name(first)
  {
    var a, b := ",\"" + name + "\":", "\"" + first + "\":";
    assert ",\"" + name + "\":{\"" + first + "\":" == a + ("{" + b);
    AsciiJoins(a, "{" + b);
    AsciiJoins("{", b);
    AsciiJoins("\"" + first, "\":");
    AsciiJoins("\"", first);
    MemberName(name);
  }

  lemma ErrorOpening()
    ensures Ascii(",\"error\":{\"code\":") == Ascii(",") + Name("error") + Ascii("{") + Name("code")
  {
    Opening("error", "code");
    assert ",\"error\":{\"code\":" == ",\"" + "error" + "\":{\"" + "code" + "\":";
  }

  lemma FailedOpening()
    ensures Ascii(",\"failed\":{\"reason\":") == Ascii(",") + Name("failed") + Ascii("{") + Name("reason")
  {
    Opening("failed", "reason");
    assert ",\"failed\":{\"reason\":" == ",\"" + "failed" + "\":{\"" + "reason" + "\":";
  }

  lemma ErrorIsEntry(e: ErrorInfo)
    ensures PrintEntries([ErrorEntry(e.code, e.message, e.retryable)]) == ErrorMember(e)
  {
    var first, flag: seq<(string, Leaf)> := ("code", String(e.code)), if e.retryable then [("retryable", True)] else [];
    var rest := LeafIfAny("message", e.message) + flag;
    assert [first] + LeafIfAny("message", e.message) + flag == [first] + rest;
    GroupPrints("error", first, rest);
    ErrorOpening();
    LeavesJoin(LeafIfAny("message", e.message), flag);
    MemberIsEntry("message", e.message);
    RetryableIsLeaf(e.retryable);
    Split(Ascii(",\"error\":{\"code\":") + Str(e.code), Member("message", e.message), PrintLeaves(flag), Ascii("}"));
  }

  lemma Split(a: Text, b: Text, c: Text, d: Text)
    ensures a + (b + c) + d == a + b + c + d
  {
  }

  lemma RetryableIsLeaf(retryable: bool)
    ensures PrintLeaves(if retryable then [("retryable", True)] else [])
         == (if retryable then Ascii(",\"retryable\":true") else [])
  {
    OneLeaf("retryable", True);
    MemberName("retryable");
    assert ",\"retryable\":true" == (",\"" + "retryable" + "\":") + "true";
    AsciiJoins(",\"" + "retryable" + "\":", "true");
  }

  lemma FailedIsEntry(reason: Text, message: Text)
    ensures PrintEntries([("failed", Group([("reason", String(reason))] + LeafIfAny("message", message)))])
         == Ascii(",\"failed\":{\"reason\":") + Str(reason) + Member("message", message) + Ascii("}")
  {
    GroupPrints("failed", ("reason", String(reason)), LeafIfAny("message", message));
    FailedOpening();
    MemberIsEntry("message", message);
  }

  lemma CompletedIsEntry(result: Text, finalSeq: nat)
    ensures PrintEntries([("completed", Group(LeafIfAny("result", result) + [("finalEventSeq", Number(finalSeq))]))])
         == Ascii(",\"completed\":{") + (if result == [] then [] else Ascii("\"result\":") + Str(result) + Ascii(","))
            + Ascii("\"finalEventSeq\":") + Digits(finalSeq) + Ascii("}")
  {
    var last := ("finalEventSeq", Number(finalSeq));
    CompletedOpening();
    assert [] + [last] == [last] + [];
    if result == [] {
      GroupPrints("completed", last, []);
    } else {
      GroupPrints("completed", ("result", String(result)), [last]);
      OneLeaf("finalEventSeq", Number(finalSeq));
      Reassociate(Ascii(",") + Name("completed") + Ascii("{"), Name("result"), Str(result), Ascii(","), Name("finalEventSeq"),
                  Digits(finalSeq), Ascii("}"));
    }
  }

  lemma Reassociate(a: Text, b: Text, c: Text, d: Text, e: Text, f: Text, g: Text)
    ensures (a + b) + c + (d + e + f) + g == a + (b + c + d) + e + f + g
  {
  }

  lemma CompletedOpening()
    ensures Ascii(",\"completed\":{") == Ascii(",") + Name("completed") + Ascii("{")
    ensures Ascii("\"result\":") == Name("result") && Ascii("\"finalEventSeq\":") == Name("finalEventSeq")
  {
    MemberName("completed");
    assert ",\"completed\":{" == (",\"" + "completed" + "\":") + "{";
    AsciiJoins(",\"" + "completed" + "\":", "{");
    NameSpelled("result");
    assert "\"result\":" == "\"" + "result" + "\":";
    NameSpelled("finalEventSeq");
    assert "\"finalEventSeq\":" == "\"" + "finalEventSeq" + "\":";
  }

  lemma NameSpelled(name: string)
    ensures Ascii("\"" + name + "\":") == Name(name)
  {
    AsciiJoins("\"" + name, "\":");
    AsciiJoins("\"", name);
  }

  lemma ThreeEntries(a: seq<Entry>, b: seq<Entry>, c: seq<Entry>)
    ensures PrintEntries(a + b + c) == PrintEntries(a) + PrintEntries(b) + PrintEntries(c)
  {
    PrintJoins(a + b, c);
    PrintJoins(a, b);
  }

  lemma BodyIsEntries(body: FrameBody)
    ensures PrintEntries(BodyEntries(body)) == BodyMembers(body)
  {
    match body
    case ToolCallRequested(id, name, args) =>
      CallIsEntries(id, name, args);
    case ToolResultReceived(id, name, output, error) =>
      var call := RawIfAny("content", output) + TextIfAny("toolName", name) + TextIfAny("toolCallID", id);
      CallIsEntries(id, name, output);
      PrintJoins(call, if error.Some? then [ErrorEntry(error.value.code, error.value.message, error.value.retryable)] else []);
      if error.Some? {
        ErrorIsEntry(error.value);
      }
    case TurnCompleted(result, finalSeq) => CompletedIsEntry(result, finalSeq);
    case TurnFailed(reason, message) =>
      var failed: Entry := ("failed", Group([("reason", String(reason))] + LeafIfAny("message", message)));
      assert [failed, ErrorEntry(reason, message, false)] == [failed] + [ErrorEntry(reason, message, false)];
      PrintJoins([failed], [ErrorEntry(reason, message, false)]);
      FailedIsEntry(reason, message);
      ErrorIsEntry(ErrorInfo(reason, message, false));
    case _ =>
  }

  lemma CallIsEntries(id: CallId, name: Text, content: Text)
    ensures PrintEntries(RawIfAny("content", content) + TextIfAny("toolName", name) + TextIfAny("toolCallID", id))
         == ContentMember(content) + Member("toolName", name) + Member("toolCallID", id)
  {
    ThreeEntries(RawIfAny("content", content), TextIfAny("toolName", name), TextIfAny("toolCallID", id));
    ContentIsEntry(content);
    MemberIsEntry("toolName", name);
    MemberIsEntry("toolCallID", id);
  }

  // ---------------------------------------------------------------- the head

  lemma PlainLiteral(s: string)
    requires forall i | 0 <= i < |s| :: ' ' <= s[i] <= '~' && s[i] != '"' && s[i] != '\\' && s[i] != '&' && s[i] != '<' && s[i] != '>'
    ensures Str(Ascii(s)) == Ascii("\"") + Ascii(s) + Ascii("\"")
  {
    PlainEscape(Ascii(s));
    assert Ascii("\"") == [34];
  }

  lemma TypesAgree(body: FrameBody)
    ensures TypeName(body) == Ascii(TypeOf(body))
    ensures Str(TypeName(body)) == Ascii("\"") + TypeName(body) + Ascii("\"")
  {
    PlainLiteral(TypeOf(body));
  }

  lemma VersionPrints()
    ensures Ascii("{\"version\":\"orka.harness.v1\",\"type\":\"")
         == Ascii("{") + Name("version") + Str(Ascii("orka.harness.v1")) + (Ascii(",") + Name("type") + Ascii("\""))
  {
    var a, b, c := "{\"version\":", "\"orka.harness.v1\"", ",\"type\":\"";
    assert "{\"version\":\"orka.harness.v1\",\"type\":\"" == a + b + c;
    AsciiJoins(a + b, c);
    AsciiJoins(a, b);
    VersionName();
    VersionValue();
    TypeOpening();
  }

  lemma VersionName()
    ensures Ascii("{\"version\":") == Ascii("{") + Name("version")
  {
    NameSpelled("version");
    assert "{\"version\":" == "{" + ("\"" + "version" + "\":");
    AsciiJoins("{", "\"" + "version" + "\":");
  }

  lemma VersionValue()
    ensures Ascii("\"orka.harness.v1\"") == Str(Ascii("orka.harness.v1"))
  {
    PlainLiteral("orka.harness.v1");
    assert "\"orka.harness.v1\"" == "\"" + "orka.harness.v1" + "\"";
    AsciiJoins("\"" + "orka.harness.v1", "\"");
    AsciiJoins("\"", "orka.harness.v1");
  }

  lemma TypeOpening()
    ensures Ascii(",\"type\":\"") == Ascii(",") + Name("type") + Ascii("\"")
  {
    MemberName("type");
    assert ",\"type\":\"" == (",\"" + "type" + "\":") + "\"";
    AsciiJoins(",\"" + "type" + "\":", "\"");
  }

  lemma SessionOpening()
    ensures Ascii("\",\"runtimeSessionID\":") == Ascii("\"") + (Ascii(",") + Name("runtimeSessionID"))
  {
    MemberName("runtimeSessionID");
    assert "\",\"runtimeSessionID\":" == "\"" + (",\"" + "runtimeSessionID" + "\":");
    AsciiJoins("\"", ",\"" + "runtimeSessionID" + "\":");
  }

  lemma IdOpenings()
    ensures Ascii(",\"turnID\":") == Ascii(",") + Name("turnID")
    ensures Ascii(",\"correlationID\":") == Ascii(",") + Name("correlationID")
  {
    MemberName("turnID");
    assert ",\"turnID\":" == ",\"" + "turnID" + "\":";
    MemberName("correlationID");
    assert ",\"correlationID\":" == ",\"" + "correlationID" + "\":";
  }

  lemma OtherOpenings()
    ensures Ascii(",\"seq\":") == Ascii(",") + Name("seq")
    ensures Ascii(",\"createdAt\":") == Ascii(",") + Name("createdAt")
  {
    MemberName("seq");
    assert ",\"seq\":" == ",\"" + "seq" + "\":";
    MemberName("createdAt");
    assert ",\"createdAt\":" == ",\"" + "createdAt" + "\":";
  }

  function Written(name: string, value: Text): Text {
    Ascii(",") + Name(name) + value
  }

  /** The members of the head behind the first. */
  function Behind(front: Text, id: Identity, f: Frame): Text {
    front + Written("type", Str(Ascii(TypeOf(f.body)))) + Written("runtimeSessionID", Str(id.session)) + Written("turnID", Str(id.turn))
    + Written("correlationID", Str(id.correlation)) + Written("seq", Digits(f.seqNo))
  }

  lemma HeadPrints(id: Identity, f: Frame)
    ensures PrintEntries(HeadEntries(id, f)) == Behind(Written("version", Str(Ascii("orka.harness.v1"))), id, f)
  {
    var version, typ := Text1("version", Ascii("orka.harness.v1")), Text1("type", Ascii(TypeOf(f.body)));
    var session, turn := Text1("runtimeSessionID", id.session), Text1("turnID", id.turn);
    var correlation, seqNo: seq<Entry> := Text1("correlationID", id.correlation), [("seq", Single(Number(f.seqNo)))];
    PrintJoins(version + typ + session + turn + correlation, seqNo);
    PrintJoins(version + typ + session + turn, correlation);
    PrintJoins(version + typ + session, turn);
    ThreeEntries(version, typ, session);
    OneEntry("version", Single(String(Ascii("orka.harness.v1"))));
    OneEntry("type", Single(String(Ascii(TypeOf(f.body)))));
    OneEntry("runtimeSessionID", Single(String(id.session)));
    OneEntry("turnID", Single(String(id.turn)));
    OneEntry("correlationID", Single(String(id.correlation)));
    OneEntry("seq", Single(Number(f.seqNo)));
  }

  /** The first two members, up to the session's name. */
  lemma FirstPart(typ: Text)
    requires Str(typ) == Ascii("\"") + typ + Ascii("\"")
    ensures Ascii("{\"version\":\"orka.harness.v1\",\"type\":\"") + typ + Ascii("\",\"runtimeSessionID\":")
         == Ascii("{") + (Name("version") + Str(Ascii("orka.harness.v1"))) + Written("type", Str(typ)) + Ascii(",") + Name("runtimeSessionID")
  {
    VersionPrints();
    SessionOpening();
    FirstFlat(Ascii("{"), Name("version"), Str(Ascii("orka.harness.v1")), Ascii(",") + Name("type"), Ascii("\""), typ,
              Ascii(","), Name("runtimeSessionID"));
  }

  lemma FirstFlat(a: Text, b: Text, c: Text, d: Text, q: Text, t: Text, e: Text, f: Text)
    ensures (a + b + c + (d + q)) + t + (q + (e + f)) == a + (b + c) + (d + (q + t + q)) + e + f
  {
    assert (a + b + c + (d + q)) + t + (q + (e + f)) == (a + b + c) + (d + (q + t + q)) + (e + f);
  }

  lemma HeaderPrints(id: Identity, f: Frame)
    ensures Header(id, f.body) + Digits(f.seqNo)
         == Behind(Ascii("{") + (Name("version") + Str(Ascii("orka.harness.v1"))), id, f)
  {
    TypesAgree(f.body);
    FirstPart(TypeName(f.body));
    IdOpenings();
    OtherOpenings();
    var front := Ascii("{") + (Name("version") + Str(Ascii("orka.harness.v1"))) + Written("type", Str(Ascii(TypeOf(f.body))));
    Regroup(front, Ascii(","), Name("runtimeSessionID"), Str(id.session));
    Regroup2(front + Written("runtimeSessionID", Str(id.session)), Ascii(",") + Name("turnID"), Str(id.turn));
    Regroup2(front + Written("runtimeSessionID", Str(id.session)) + Written("turnID", Str(id.turn)),
             Ascii(",") + Name("correlationID"), Str(id.correlation));
    Regroup2(front + Written("runtimeSessionID", Str(id.session)) + Written("turnID", Str(id.turn))
             + Written("correlationID", Str(id.correlation)), Ascii(",") + Name("seq"), Digits(f.seqNo));
  }

  lemma Regroup(a: Text, b: Text, c: Text, d: Text)
    ensures a + b + c + d == a + (b + c + d)
  {
  }

  lemma Regroup2(a: Text, b: Text, c: Text)
    ensures a + b + c == a + (b + c)
  {
  }

  lemma StampIsEntries(s: Stamp)
    ensures PrintEntries(Text1("createdAt", s.createdAt) + TextIfAny("summary", s.summary)) == StampMembers(s)
  {
    PrintJoins(Text1("createdAt", s.createdAt), TextIfAny("summary", s.summary));
    OneEntry("createdAt", Single(String(s.createdAt)));
    OtherOpenings();
    MemberIsEntry("summary", s.summary);
  }

  lemma BackendPrints()
    ensures PrintEntries([("metadata", Group([("backend", String(Ascii("foundry-classic")))]))])
         == Ascii(",\"metadata\":{\"backend\":\"foundry-classic\"}")
  {
    var leaf := ("backend", String(Ascii("foundry-classic")));
    assert [leaf] + [] == [leaf];
    GroupPrints("metadata", leaf, []);
    BackendSpelled();
  }

  lemma BackendSpelled()
    ensures Ascii(",\"metadata\":{\"backend\":\"foundry-classic\"}")
         == (Ascii(",") + Name("metadata") + Ascii("{") + Name("backend")) + Str(Ascii("foundry-classic")) + [] + Ascii("}")
  {
    MetadataOpening();
    BackendValue();
    BackendLiteral();
    BackendJoins(",\"metadata\":{\"backend\":", "\"foundry-classic\"");
  }

  lemma BackendLiteral()
    ensures ",\"metadata\":{\"backend\":\"foundry-classic\"}" == ",\"metadata\":{\"backend\":" + "\"foundry-classic\"" + "}"
  {
  }

  lemma BackendJoins(a: string, b: string)
    ensures Ascii(a + b + "}") == Ascii(a) + Ascii(b) + [] + Ascii("}")
  {
    AsciiJoins(a + b, "}");
    AsciiJoins(a, b);
  }

  lemma MetadataOpening()
    ensures Ascii(",\"metadata\":{\"backend\":") == Ascii(",") + Name("metadata") + Ascii("{") + Name("backend")
  {
    Opening("metadata", "backend");
    assert ",\"metadata\":{\"backend\":" == ",\"" + "metadata" + "\":{\"" + "backend" + "\":";
  }

  lemma BackendValue()
    ensures Ascii("\"foundry-classic\"") == Str(Ascii("foundry-classic"))
  {
    PlainLiteral("foundry-classic");
    assert "\"foundry-classic\"" == "\"" + "foundry-classic" + "\"";
    AsciiJoins("\"" + "foundry-classic", "\"");
    AsciiJoins("\"", "foundry-classic");
  }

  // ---------------------------------------------------------------- the frame

  function FirstMember(): Text {
    Name("version") + Str(Ascii("orka.harness.v1"))
  }

  lemma HeadMatches(id: Identity, f: Frame)
    ensures PrintEntries(HeadEntries(id, f)) == Ascii(",") + Behind(FirstMember(), id, f)
    ensures Header(id, f.body) + Digits(f.seqNo) == Ascii("{") + Behind(FirstMember(), id, f)
  {
    HeadPrints(id, f);
    HeaderPrints(id, f);
    Regroup2(Ascii(","), Name("version"), Str(Ascii("orka.harness.v1")));
    BehindMoves(Ascii(","), FirstMember(), id, f);
    BehindMoves(Ascii("{"), FirstMember(), id, f);
  }

  lemma BehindMoves(a: Text, b: Text, id: Identity, f: Frame)
    ensures Behind(a + b, id, f) == a + Behind(b, id, f)
  {
    FiveMove(a, b, Written("type", Str(Ascii(TypeOf(f.body)))), Written("runtimeSessionID", Str(id.session)),
             Written("turnID", Str(id.turn)), Written("correlationID", Str(id.correlation)), Written("seq", Digits(f.seqNo)));
  }

  lemma FiveMove(a: Text, b: Text, c: Text, d: Text, e: Text, f: Text, g: Text)
    ensures a + b + c + d + e + f + g == a + (b + c + d + e + f + g)
  {
    Regroup2(a, b, c);
    Regroup2(a, b + c, d);
    Regroup2(a, b + c + d, e);
    Regroup2(a, b + c + d + e, f);
    Regroup2(a, b + c + d + e + f, g);
  }

  lemma EntriesPrint(id: Identity, f: Frame, s: Stamp)
    ensures Entries(id, f, s) != []
    ensures PrintEntries(Entries(id, f, s))
         == PrintEntries(HeadEntries(id, f)) + StampMembers(s) + BodyMembers(f.body) + PrintEntries(Backend(s))
  {
    var head, stamp, body := HeadEntries(id, f), Text1("createdAt", s.createdAt) + TextIfAny("summary", s.summary), BodyEntries(f.body);
    assert Entries(id, f, s) == head + stamp + body + Backend(s);
    PrintJoins(head + stamp + body, Backend(s));
    ThreeEntries(head, stamp, body);
    StampIsEntries(s);
    BodyIsEntries(f.body);
    assert head != [];
  }

  lemma TrailerPrints(s: Stamp)
    ensures Trailer(s) == PrintEntries(Backend(s)) + Ascii("}")
  {
    if s.backend {
      BackendPrints();
    }
  }

  lemma Assemble(first: Text, stamp: Text, body: Text, backend: Text)
    ensures Ascii("{") + (Ascii(",") + first + stamp + body + backend)[1..] + Ascii("}")
         == (Ascii("{") + first) + stamp + body + (backend + Ascii("}"))
  {
  }

  /** The encoding of a frame is the object with its members, printed. */
  lemma EncodeIsPrinted(id: Identity, f: Frame, s: Stamp)
    ensures Encode(id, f, s) == Print(Entries(id, f, s))
  {
    HeadMatches(id, f);
    EntriesPrint(id, f, s);
    TrailerPrints(s);
    Assemble(Behind(FirstMember(), id, f), StampMembers(s), BodyMembers(f.body), PrintEntries(Backend(s)));
  }
}
