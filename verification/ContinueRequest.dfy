/** The checks of a continue request, and the idempotency keys its results must carry. */
module ContinueRequest {
  import opened Wrappers
  import opened Bytes
  import opened Turns

  const PROTOCOL_VERSION := Ascii("orka.harness.v1")

  datatype Request = Request(version: Text, namespace: Text, taskName: Text, sessionName: Text,
                             session: Text, turn: Text, correlation: Text, results: seq<ToolCallResult>)

  datatype Header = Namespace | TaskName | SessionName | Session | TurnId | Correlation

  datatype Problem = Malformed | DuplicateId | WrongKey | NoAnswer | OtherSession | OtherTurn

  datatype Refusal = BadVersion | Blank(header: Header) | NoResults | BadResult(index: nat, problem: Problem)

  // ---------------------------------------------------------------- idempotency keys

  function Key(session: Text, turn: Text, callId: CallId): Text {
    TrimSpace(session) + [COLON] + TrimSpace(turn) + [COLON] + TrimSpace(callId)
  }

  /** The key names session, turn and call, in this order. */
  lemma KeySpelled()
    ensures Key(Ascii(" s "), Ascii("t"), Ascii("c")) == Ascii("s:t:c")
  {
    var padded, x, y, z: Text := Ascii(" s "), [115], [116], [99];
    assert padded == [SPACE, 115, SPACE] && Ascii("t") == y && Ascii("c") == z;
    assert padded[1..] == [115, SPACE] && [115, SPACE][..1] == x && LeadingSpace(x) == 0 && TrailingSpace(x) == 0;
    assert TrimLeft(padded) == TrimLeft([115, SPACE]) == [115, SPACE];
    assert TrimRight([115, SPACE]) == TrimRight(x) == x;
    assert TrimSpace(y) == y && TrimSpace(z) == z;
    assert Ascii("s:t:c") == [115, COLON, 116, COLON, 99];
  }

  lemma SamePrefix(front: Text, a: Text, b: Text)
    requires front + a == front + b
    ensures a == b
  {
    assert a == (front + a)[|front|..] && b == (front + b)[|front|..];
  }

  /** Within one turn, two calls share a key exactly when their ids agree but for surrounding white space. */
  lemma KeysOfOneTurn(session: Text, turn: Text, a: CallId, b: CallId)
    ensures Key(session, turn, a) == Key(session, turn, b) <==> TrimSpace(a) == TrimSpace(b)
  {
    if Key(session, turn, a) == Key(session, turn, b) {
      SamePrefix(TrimSpace(session) + [COLON] + TrimSpace(turn) + [COLON], TrimSpace(a), TrimSpace(b));
    }
  }

  lemma ColonAfter(a: Text, x: Text)
    requires COLON !in a
    ensures var k := a + [COLON] + x;
            k[|a|] == COLON && (forall i | 0 <= i < |a| :: k[i] != COLON) && k[..|a|] == a && k[|a| + 1..] == x
  {
  }

  lemma FirstColon(a: Text, x: Text, b: Text, y: Text)
    requires COLON !in a && COLON !in b && a + [COLON] + x == b + [COLON] + y
    ensures a == b && x == y
  {
    ColonAfter(a, x);
    ColonAfter(b, y);
  }

  /** Across turns, keys tell calls apart where no session and no turn id has a colon in it. */
  lemma KeysAcrossTurns(session: Text, turn: Text, a: CallId, session': Text, turn': Text, b: CallId)
    requires COLON !in TrimSpace(session) && COLON !in TrimSpace(session')
    requires COLON !in TrimSpace(turn) && COLON !in TrimSpace(turn')
    ensures Key(session, turn, a) == Key(session', turn', b)
            <==> TrimSpace(session) == TrimSpace(session') && TrimSpace(turn) == TrimSpace(turn') && TrimSpace(a) == TrimSpace(b)
  {
    if Key(session, turn, a) == Key(session', turn', b) {
      var x, y := TrimSpace(turn) + [COLON] + TrimSpace(a), TrimSpace(turn') + [COLON] + TrimSpace(b);
      assert Key(session, turn, a) == TrimSpace(session) + [COLON] + x;
      assert Key(session', turn', b) == TrimSpace(session') + [COLON] + y;
      FirstColon(TrimSpace(session), x, TrimSpace(session'), y);
      FirstColon(TrimSpace(turn), TrimSpace(a), TrimSpace(turn'), TrimSpace(b));
    }
  }

  lemma PlainText(s: Text)
    requires |s| > 0 && forall i | 0 <= i < |s| :: 33 <= s[i] < 128
    ensures TrimSpace(s) == s
  {
    assert LeadingSpace(s) == 0 && TrailingSpace(s) == 0;
  }

  /** With a colon in an id they need not: these two sessions have the same key for the same call. */
  lemma KeysCollide(session: Text, turn: Text, session': Text, turn': Text, callId: CallId)
    requires session == [97, COLON, 98] && turn == [99]
    requires session' == [97] && turn' == [98, COLON, 99]
    ensures Key(session, turn, callId) == Key(session', turn', callId)
    ensures TrimSpace(session) != TrimSpace(session')
  {
    PlainText(session);
    PlainText(turn);
    PlainText(session');
    PlainText(turn');
  }

  // ---------------------------------------------------------------- what is acceptable

  predicate GoodVersion(version: Text) {
    TrimSpace(version) == PROTOCOL_VERSION
  }

  predicate IsBlank(s: Text) {
    TrimSpace(s) == []
  }

  function HeaderOf(req: Request, h: Header): Text {
    match h
    case Namespace => req.namespace
    case TaskName => req.taskName
    case SessionName => req.sessionName
    case Session => req.session
    case TurnId => req.turn
    case Correlation => req.correlation
  }

  /** ToolCallResult.Validate. */
  predicate WellFormed(r: ToolCallResult) {
    && GoodVersion(r.version) && !IsBlank(r.session) && !IsBlank(r.turn) && !IsBlank(r.callId)
    && !IsBlank(r.idempotencyKey)
  }

  /** A result names its call, carries an answer under the canonical key, and belongs to the request's turn. */
  predicate Belongs(req: Request, r: ToolCallResult) {
    && WellFormed(r)
    && r.idempotencyKey == Key(r.session, r.turn, r.callId)
    && (r.output != [] || r.error.Some?)
    && r.session == req.session && r.turn == req.turn
  }

  ghost predicate Acceptable(req: Request) {
    && GoodVersion(req.version)
    && (forall h :: !IsBlank(HeaderOf(req, h)))
    && req.results != []
    && (forall r | r in req.results :: Belongs(req, r))
    && DistinctIds(req.results)
  }

  predicate Repeats(results: seq<ToolCallResult>, i: nat)
    requires i < |results|
  {
    exists j :: 0 <= j < i && results[j].callId == results[i].callId
  }

  /** The first thing wrong with a result, in the order of the checks. */
  predicate IsProblem(req: Request, i: nat, problem: Problem)
    requires i < |req.results|
  {
    var r := req.results[i];
    match problem
    case Malformed => !WellFormed(r)
    case DuplicateId => WellFormed(r) && Repeats(req.results, i)
    case WrongKey => WellFormed(r) && !Repeats(req.results, i) && r.idempotencyKey != Key(r.session, r.turn, r.callId)
    case NoAnswer =>
      && WellFormed(r) && !Repeats(req.results, i) && r.idempotencyKey == Key(r.session, r.turn, r.callId)
      && r.output == [] && r.error.None?
    case OtherSession =>
      && WellFormed(r) && !Repeats(req.results, i) && r.idempotencyKey == Key(r.session, r.turn, r.callId)
      && (r.output != [] || r.error.Some?) && r.session != req.session
    case OtherTurn =>
      && WellFormed(r) && !Repeats(req.results, i) && r.idempotencyKey == Key(r.session, r.turn, r.callId)
      && (r.output != [] || r.error.Some?) && r.session == req.session && r.turn != req.turn
  }

  method ValidateHeader(req: Request) returns (refusal: Option<Refusal>)
    ensures refusal.None? <==> GoodVersion(req.version) && (forall h :: !IsBlank(HeaderOf(req, h))) && req.results != []
    ensures refusal == Some(BadVersion) <==> !GoodVersion(req.version)
    ensures forall h :: refusal == Some(Blank(h)) ==> IsBlank(HeaderOf(req, h))
    ensures refusal == Some(NoResults) ==> req.results == []
    ensures !(refusal.Some? && refusal.value.BadResult?)
  {
    if !GoodVersion(req.version) {
      return Some(BadVersion);
    }
    if IsBlank(req.namespace) {
      assert IsBlank(HeaderOf(req, Namespace));
      return Some(Blank(Namespace));
    }
    if IsBlank(req.taskName) {
      assert IsBlank(HeaderOf(req, TaskName));
      return Some(Blank(TaskName));
    }
    if IsBlank(req.sessionName) {
      assert IsBlank(HeaderOf(req, SessionName));
      return Some(Blank(SessionName));
    }
    if IsBlank(req.session) {
      assert IsBlank(HeaderOf(req, Session));
      return Some(Blank(Session));
    }
    if IsBlank(req.turn) {
      assert IsBlank(HeaderOf(req, TurnId));
      return Some(Blank(TurnId));
    }
    if IsBlank(req.correlation) {
      assert IsBlank(HeaderOf(req, Correlation));
      return Some(Blank(Correlation));
    }
    refusal := if req.results == [] then Some(NoResults) else None;
  }

  predicate IsGood(req: Request, i: nat)
    requires i < |req.results|
  {
    Belongs(req, req.results[i]) && !Repeats(req.results, i)
  }

  /** The body of the loop over the results; `seen` holds the ids before this one. */
  method ValidateResult(req: Request, i: nat, seen: set<CallId>) returns (problem: Option<Problem>)
    requires i < |req.results|
    requires req.results[i].callId in seen <==> Repeats(req.results, i)
    ensures problem.None? <==> IsGood(req, i)
    ensures problem.Some? ==> IsProblem(req, i, problem.value)
  {
    var r := req.results[i];
    if !WellFormed(r) {
      return Some(Malformed);
    }
    if r.callId in seen {
      return Some(DuplicateId);
    }
    if r.idempotencyKey != Key(r.session, r.turn, r.callId) {
      return Some(WrongKey);
    }
    if r.output == [] && r.error.None? {
      return Some(NoAnswer);
    }
    if r.session != req.session {
      return Some(OtherSession);
    }
    problem := if r.turn != req.turn then Some(OtherTurn) else None;
  }

  lemma AllGood(req: Request)
    ensures (forall i: nat | i < |req.results| :: IsGood(req, i))
            <==> (forall r | r in req.results :: Belongs(req, r)) && DistinctIds(req.results)
  {
    if forall i: nat | i < |req.results| :: IsGood(req, i) {
      forall i, j | 0 <= i < j < |req.results| ensures req.results[i].callId != req.results[j].callId {
        assert IsGood(req, j);
      }
      forall r | r in req.results ensures Belongs(req, r) {
        var i: nat :| i < |req.results| && req.results[i] == r;
        assert IsGood(req, i);
      }
    }
  }

  /** ContinueTurnRequest.Validate: accepts exactly the acceptable requests, and names the first bad result. */
  method Validate(req: Request) returns (refusal: Option<Refusal>)
    ensures refusal.None? <==> Acceptable(req)
    ensures refusal.Some? && refusal.value.BadResult? ==>
              && refusal.value.index < |req.results|
              && IsProblem(req, refusal.value.index, refusal.value.problem)
              && forall j: nat | j < refusal.value.index :: IsGood(req, j)
  {
    refusal := ValidateHeader(req);
    if refusal.Some? {
      return;
    }
    AllGood(req);
    refusal := ValidateResults(req);
  }

  /** The loop over the results, with the ids seen so far. */
  method ValidateResults(req: Request) returns (refusal: Option<Refusal>)
    ensures refusal.None? <==> forall i: nat | i < |req.results| :: IsGood(req, i)
    ensures refusal.Some? ==>
              && refusal.value.BadResult? && refusal.value.index < |req.results|
              && IsProblem(req, refusal.value.index, refusal.value.problem)
              && forall j: nat | j < refusal.value.index :: IsGood(req, j)
  {
    var seen: set<CallId> := {};
    for i := 0 to |req.results|
      invariant forall id :: id in seen <==> exists j :: 0 <= j < i && req.results[j].callId == id
      invariant forall j: nat | j < i :: IsGood(req, j)
    {
      var problem := ValidateResult(req, i, seen);
      if problem.Some? {
        assert !IsGood(req, i);
        return Some(BadResult(i, problem.value));
      }
      assert IsGood(req, i);
      seen := seen + {req.results[i].callId};
    }
    refusal := None;
  }

  // ---------------------------------------------------------------- what acceptance gives

  /** An accepted request, spelled out for one of its results. */
  lemma AcceptedResult(req: Request, i: nat)
    requires Acceptable(req) && i < |req.results|
    ensures var r, v := req.results[i], Ascii("orka.harness.v1");
            && TrimSpace(req.version) == TrimSpace(r.version) == v
            && r.session == req.session && r.turn == req.turn
            && TrimSpace(r.session) != [] && TrimSpace(r.turn) != [] && TrimSpace(r.callId) != []
            && r.idempotencyKey == TrimSpace(r.session) + Ascii(":") + TrimSpace(r.turn) + Ascii(":") + TrimSpace(r.callId)
            && (r.output != [] || r.error.Some?)
            && forall j | 0 <= j < |req.results| && j != i :: req.results[j].callId != r.callId
  {
    assert Belongs(req, req.results[i]);
    assert !IsBlank(HeaderOf(req, Session));
    assert Ascii(":") == [COLON];
  }

  /** Two results of an accepted request carry the same key exactly when their ids differ in white space only. */
  lemma KeysOfAcceptable(req: Request, i: nat, j: nat)
    requires Acceptable(req) && i < |req.results| && j < |req.results|
    ensures req.results[i].idempotencyKey == req.results[j].idempotencyKey
            <==> TrimSpace(req.results[i].callId) == TrimSpace(req.results[j].callId)
  {
    assert Belongs(req, req.results[i]) && Belongs(req, req.results[j]);
    KeysOfOneTurn(req.session, req.turn, req.results[i].callId, req.results[j].callId);
  }

  /** So distinct ids do not make distinct keys: a request can be accepted with one key on two results. */
  lemma SharedKeyAccepted() returns (req: Request)
    ensures Acceptable(req) && |req.results| == 2
    ensures req.results[0].idempotencyKey == req.results[1].idempotencyKey
  {
    var x: Text := [120];
    TrimVersion();
    assert TrimSpace(x) == x;
    assert (x + [SPACE])[..1] == x && TrimSpace(x + [SPACE]) == x;
    var a := ToolCallResult(PROTOCOL_VERSION, x, x, x, Key(x, x, x), true, x, None);
    var b := a.(callId := x + [SPACE]);
    req := Request(PROTOCOL_VERSION, x, x, x, x, x, x, [a, b]);
    KeyNotBlank(x);
    assert Belongs(req, a) && Belongs(req, b);
    assert forall h :: HeaderOf(req, h) == x;
  }

  lemma TrimVersion()
    ensures TrimSpace(PROTOCOL_VERSION) == PROTOCOL_VERSION
  {
    var text := "orka.harness.v1";
    assert text[0] == 'o' && text[|text| - 1] == '1';
    assert PROTOCOL_VERSION[0] == 111 && PROTOCOL_VERSION[|PROTOCOL_VERSION| - 1] == 49;
  }

  lemma KeyNotBlank(x: Text)
    requires x == [120]
    ensures !IsBlank(Key(x, x, x))
  {
    assert TrimSpace(x) == x;
    var k := Key(x, x, x);
    assert k[0] == 120 && k[|k| - 1] == 120;
  }
}
