/** Paths of turn resources: the builder, the parser, and that each undoes the other. */
module TurnPath {
  import opened Wrappers
  import opened Bytes

  datatype PathError = InvalidTurnId | InvalidResource | NotFound | BadEscape

  /** "/v1/turns" with its trailing slash. */
  const TURNS_PREFIX: Text := [47, 118, 49, 47, 116, 117, 114, 110, 115, 47]

  const PERCENT: Byte := 37

  predicate SafeSegment(s: Text) {
    s != [] && s != [DOT] && s != [DOT, DOT] && SLASH !in s && BACKSLASH !in s
  }

  /** ValidateTurnPathSegment. */
  predicate ValidTurnId(id: Text) {
    TrimSpace(id) == id && SafeSegment(id)
  }

  // ---------------------------------------------------------------- percent-encoding

  /** The bytes url.PathEscape leaves alone. */
  predicate Plain(b: Byte) {
    || 48 <= b <= 57 || 65 <= b <= 90 || 97 <= b <= 122
    || b == 45 || b == 95 || b == 46 || b == 126
    || b == 36 || b == 38 || b == 43 || b == 58 || b == 61 || b == 64
  }

  function UpperHex(n: nat): Byte
    requires n < 16
  {
    if n < 10 then 48 + n else 55 + n
  }

  function HexValue(b: Byte): Option<nat> {
    if 48 <= b <= 57 then Some(b - 48)
    else if 97 <= b <= 102 then Some(b - 87)
    else if 65 <= b <= 70 then Some(b - 55)
    else None
  }

  /** url.PathEscape. */
  function PathEscape(s: Text): Text {
    if s == [] then []
    else if Plain(s[0]) then [s[0]] + PathEscape(s[1..])
    else [PERCENT, UpperHex(s[0] / 16), UpperHex(s[0] % 16)] + PathEscape(s[1..])
  }

  /** url.PathUnescape: a percent sign has to be followed by two hexadecimal digits of either case. */
  function PathUnescape(s: Text): Option<Text> {
    if s == [] then Some([])
    else if s[0] != PERCENT then
      match PathUnescape(s[1..])
      case None => None
      case Some(rest) => Some([s[0]] + rest)
    else if |s| < 3 || HexValue(s[1]).None? || HexValue(s[2]).None? then None
    else
      match PathUnescape(s[3..])
      case None => None
      case Some(rest) => Some([16 * HexValue(s[1]).value + HexValue(s[2]).value] + rest)
  }

  // ---------------------------------------------------------------- building and parsing

  function TrimSlashesLeft(s: Text): Text {
    if s != [] && s[0] == SLASH then TrimSlashesLeft(s[1..]) else s
  }

  function TrimSlashesRight(s: Text): Text {
    if s != [] && s[|s| - 1] == SLASH then TrimSlashesRight(s[..|s| - 1]) else s
  }

  function TrimSlashes(s: Text): Text {
    TrimSlashesRight(TrimSlashesLeft(s))
  }

  function ResourceName(resource: Text): Text {
    TrimSlashes(TrimSpace(resource))
  }

  /** TurnResourcePath. */
  function Build(id: Text, resource: Text): Result<Text, PathError> {
    if !ValidTurnId(id) then Err(InvalidTurnId)
    else if !SafeSegment(ResourceName(resource)) then Err(InvalidResource)
    else Ok(TURNS_PREFIX + PathEscape(id) + [SLASH] + ResourceName(resource))
  }

  function Split(s: Text): (parts: seq<Text>)
    ensures parts != []
  {
    if s == [] then [[]]
    else
      var rest := Split(s[1..]);
      if s[0] == SLASH then [[]] + rest else [[s[0]] + rest[0]] + rest[1..]
  }

  /** ParseTurnResourcePath. */
  function Parse(rawPath: Text): Result<(Text, Text), PathError> {
    var path := TrimSpace(rawPath);
    if !(TURNS_PREFIX <= path) || path == TURNS_PREFIX then Err(NotFound)
    else
      var parts := Split(TrimSlashes(path[|TURNS_PREFIX|..]));
      if |parts| != 2 then Err(NotFound)
      else
        match PathUnescape(parts[0])
        case None => Err(BadEscape)
        case Some(id) =>
          if !ValidTurnId(id) then Err(InvalidTurnId)
          else
            var resource := TrimSpace(parts[1]);
            if resource == [] || BACKSLASH in resource then Err(NotFound) else Ok((id, resource))
  }

  // ---------------------------------------------------------------- unescape after escape

  lemma {:induction false} UnescapeEscape(s: Text)
    ensures PathUnescape(PathEscape(s)) == Some(s)
  {
    if s != [] {
      UnescapeEscape(s[1..]);
      var e := PathEscape(s);
      if Plain(s[0]) {
        assert e[1..] == PathEscape(s[1..]);
      } else {
        assert e[3..] == PathEscape(s[1..]);
      }
      assert s == [s[0]] + s[1..];
    }
  }

  /** Escaped text contains no slash, so it stays one segment; and it is empty only for the empty text. */
  lemma {:induction false} EscapeIsOneSegment(s: Text)
    ensures SLASH !in PathEscape(s)
    ensures s != [] ==> PathEscape(s) != []
  {
    if s != [] {
      EscapeIsOneSegment(s[1..]);
    }
  }

  /** The characters that stand for themselves in a path segment (RFC 3986, section 3.3, without `!'()*,;`). */
  predicate SegmentCharacter(c: char) {
    'a' <= c <= 'z' || 'A' <= c <= 'Z' || '0' <= c <= '9'
    || c == '-' || c == '.' || c == '_' || c == '~'
    || c == '$' || c == '&' || c == '+' || c == ':' || c == '=' || c == '@'
  }

  /** Every other byte, and no other, becomes a percent sign and two upper-case digits. */
  lemma {:induction false} EscapedExactly(s: Text)
    ensures PathEscape(s) == s <==> forall i | 0 <= i < |s| :: SegmentCharacter(s[i] as char)
    ensures |PathEscape(s)| == |s| ==> PathEscape(s) == s
    ensures |PathEscape(s)| >= |s|
    ensures forall i | 0 <= i < |PathEscape(s)| :: var c := PathEscape(s)[i] as char; c == '%' || SegmentCharacter(c)
  {
    if s != [] {
      EscapedExactly(s[1..]);
      assert s == [s[0]] + s[1..];
      var rest := PathEscape(s[1..]);
      if Plain(s[0]) {
        assert PathEscape(s)[1..] == rest;
      } else {
        assert PathEscape(s)[3..] == rest;
      }
    }
  }

  /** The digits are written in upper case and read in either. */
  lemma EscapedSlash(upper: Text, lower: Text)
    requires upper == [PERCENT, '2' as int, 'F' as int] && lower == [PERCENT, '2' as int, 'f' as int]
    ensures PathEscape([SLASH]) == upper
    ensures PathUnescape(upper) == PathUnescape(lower) == Some([SLASH])
    ensures PathUnescape(lower[..2]) == PathUnescape(lower[..1]) == None
  {
    assert [SLASH][1..] == [];
    assert upper[3..] == [] && lower[3..] == [] && PathUnescape([]) == Some([]);
    assert PathUnescape(upper[3..]) == Some([]) && PathUnescape(lower[3..]) == Some([]);
    assert [16 * 2 + 15] + [] == [SLASH];
  }

  // ---------------------------------------------------------------- trimming and splitting

  lemma {:induction false} SplitWhole(s: Text)
    requires SLASH !in s
    ensures Split(s) == [s]
  {
    if s != [] {
      SplitWhole(s[1..]);
      assert s == [s[0]] + s[1..];
    }
  }

  lemma {:induction false} SplitTwo(a: Text, b: Text)
    requires SLASH !in a && SLASH !in b
    ensures Split(a + [SLASH] + b) == [a, b]
  {
    var s := a + [SLASH] + b;
    if a == [] {
      assert s[1..] == b;
      SplitWhole(b);
    } else {
      assert s[1..] == a[1..] + [SLASH] + b;
      SplitTwo(a[1..], b);
      assert a == [a[0]] + a[1..];
    }
  }

  lemma {:induction false} TrimLeftSuffix(s: Text)
    ensures TrimLeft(s) == s[|s| - |TrimLeft(s)|..] && LeadingSpace(TrimLeft(s)) == 0
    ensures TrimLeft(s) == s <==> LeadingSpace(s) == 0
    decreases |s|
  {
    if LeadingSpace(s) != 0 {
      TrimLeftSuffix(s[LeadingSpace(s)..]);
    }
  }

  lemma TrimSpaceFixed(s: Text)
    ensures TrimSpace(s) == s <==> Trimmed(s)
  {
    TrimLeftSuffix(s);
    TrimRightIsPrefix(TrimLeft(s));
  }

  /** White space at the end of a path is white space at the end of its last segment. */
  lemma TrailingOfSegment(a: Text, r: Text)
    requires r != []
    ensures TrailingSpace(a + [SLASH] + r) == TrailingSpace(r)
  {
    var s := a + [SLASH] + r;
    assert forall i | 0 <= i < |r| :: s[|a| + 1 + i] == r[i];
  }

  lemma {:induction false} TrimRightOfSegment(a: Text, r: Text)
    ensures TrimRight(a + [SLASH] + r) == a + [SLASH] + TrimRight(r)
    decreases |r|
  {
    var s, n := a + [SLASH] + r, TrailingSpace(r);
    if r != [] {
      TrailingOfSegment(a, r);
      if n != 0 {
        assert s[..|s| - n] == a + [SLASH] + r[..|r| - n];
        TrimRightOfSegment(a, r[..|r| - n]);
      }
    }
  }

  lemma NoSlashesToTrim(s: Text)
    requires s != [] && s[0] != SLASH && s[|s| - 1] != SLASH
    ensures TrimSlashes(s) == s
  {
  }

  // ---------------------------------------------------------------- round trip

  lemma BuiltPathTrims(e: Text, r: Text)
    requires e != [] && SLASH !in e
    ensures TrimSpace(TURNS_PREFIX + e + [SLASH] + r) == TURNS_PREFIX + e + [SLASH] + TrimRight(r)
  {
    var s := TURNS_PREFIX + e + [SLASH] + r;
    assert s[0] == SLASH;
    assert TrimLeft(s) == s;
    TrimRightOfSegment(TURNS_PREFIX + e, r);
  }

  lemma ParsedParts(e: Text, r: Text)
    requires e != [] && SLASH !in e && SLASH !in r && r != []
    ensures var path := TURNS_PREFIX + e + [SLASH] + r;
            Split(TrimSlashes(path[|TURNS_PREFIX|..])) == [e, r]
  {
    var path := TURNS_PREFIX + e + [SLASH] + r;
    assert path[|TURNS_PREFIX|..] == e + [SLASH] + r;
    NoSlashesToTrim(e + [SLASH] + r);
    SplitTwo(e, r);
  }

  lemma TrimRightKeeps(r: Text)
    ensures TrimRight(r) <= r
    ensures TrimSpace(TrimRight(r)) == r ==> TrimRight(r) == r && TrimSpace(r) == r
  {
    TrimRightIsPrefix(r);
    TrimLeftSuffix(TrimRight(r));
    TrimRightIsPrefix(TrimLeft(TrimRight(r)));
  }

  /**
   Round trip: for every accepted turn id and resource, parsing the built path gives back the id and the
   resource name exactly when that name has no white space around it.
   */
  lemma ParseBuild(id: Text, resource: Text)
    requires Build(id, resource).Ok?
    ensures Parse(Build(id, resource).value) == Ok((id, ResourceName(resource)))
            <==> TrimSpace(ResourceName(resource)) == ResourceName(resource)
  {
    var e, r := PathEscape(id), ResourceName(resource);
    EscapeIsOneSegment(id);
    UnescapeEscape(id);
    BuiltPathTrims(e, r);
    TrimRightKeeps(r);
    var path := TURNS_PREFIX + e + [SLASH] + TrimRight(r);
    assert TURNS_PREFIX <= path;
    TrimSpaceFixed(r);
    TrimRightIsPrefix(r);
    if TrimRight(r) != [] {
      ParsedParts(e, TrimRight(r));
    } else {
      ParsedNothing(e);
    }
  }

  /** For example a slash, a space and a letter: the space only comes to the front when the slash goes. */
  lemma PaddedResourceLost(id: Text, resource: Text)
    requires id == [97] && resource == [SLASH, SPACE, 97]
    ensures Build(id, resource).Ok? && ResourceName(resource) == [SPACE, 97]
    ensures Parse(Build(id, resource).value) != Ok((id, ResourceName(resource)))
  {
    assert TrimLeft(resource) == resource && TrimRight(resource) == resource;
    assert resource[1..] == [SPACE, 97];
    assert TrimSlashesLeft(resource) == TrimSlashesLeft(resource[1..]) == [SPACE, 97];
    assert TrimSlashesRight([SPACE, 97]) == [SPACE, 97];
    assert TrimLeft(id) == id && TrimRight(id) == id;
    assert Build(id, resource).Ok?;
    ParseBuild(id, resource);
    assert [SPACE, 97][1..] == [97] && LeadingSpace([SPACE, 97]) == 1;
    assert TrimLeft([SPACE, 97]) == TrimLeft([97]) == [97];
    assert TrimSpace([SPACE, 97]) != [SPACE, 97];
  }

  /** A path that ends in the slash after the turn id has one segment. */
  lemma ParsedNothing(e: Text)
    requires e != [] && SLASH !in e
    ensures var path := TURNS_PREFIX + e + [SLASH] + [];
            Split(TrimSlashes(path[|TURNS_PREFIX|..])) == [e]
  {
    var path := TURNS_PREFIX + e + [SLASH] + [];
    var tail := path[|TURNS_PREFIX|..];
    assert tail == e + [SLASH];
    assert tail[..|tail| - 1] == e;
    assert TrimSlashesLeft(tail) == tail;
    assert TrimSlashesRight(tail) == TrimSlashesRight(e) == e;
    SplitWhole(e);
  }

  /** A resource without surrounding white space or slashes is its own name. */
  lemma PlainResourceName(resource: Text)
    requires Trimmed(resource) && resource != []
    requires resource[0] != SLASH && resource[|resource| - 1] != SLASH
    ensures ResourceName(resource) == resource && TrimSpace(resource) == resource
  {
    TrimSpaceFixed(resource);
    NoSlashesToTrim(resource);
  }

  /** Neither empty nor a dot segment, and without a slash or a backslash. */
  ghost predicate OneName(s: Text) {
    s != [] && s != [46] && s != [46, 46] && forall i | 0 <= i < |s| :: s[i] != 47 && s[i] != 92
  }

  /**
   Which ids and resources have a path; and it has the two segments of the prefix, the escaped id and the resource,
   of which none is empty or a dot segment.
   */
  lemma BuildExactly(id: Text, resource: Text)
    ensures Build(id, resource).Ok? <==> TrimSpace(id) == id && OneName(id) && OneName(ResourceName(resource))
    ensures Build(id, resource).Ok? ==>
              && Build(id, resource).value == Ascii("/v1/turns/") + PathEscape(id) + Ascii("/") + ResourceName(resource)
              && OneName(PathEscape(id))
  {
    assert Ascii("/v1/turns/") == TURNS_PREFIX && Ascii("/") == [SLASH];
    if Build(id, resource).Ok? {
      EscapedExactly(id);
      EscapeIsOneSegment(id);
      UnescapeEscape(id);
      UnescapeEscape([DOT]);
      UnescapeEscape([DOT, DOT]);
      EscapedExactly([DOT]);
      EscapedExactly([DOT, DOT]);
    }
  }

  /** So distinct turns and resources have distinct paths. */
  lemma PathsAreInjective(id: Text, resource: Text, id': Text, resource': Text)
    requires Build(id, resource).Ok? && Build(id, resource) == Build(id', resource')
    ensures id == id' && ResourceName(resource) == ResourceName(resource')
  {
    var e, e', r, r' := PathEscape(id), PathEscape(id'), ResourceName(resource), ResourceName(resource');
    EscapeIsOneSegment(id);
    EscapeIsOneSegment(id');
    assert e + [SLASH] + r == e' + [SLASH] + r' by {
      assert (TURNS_PREFIX + e + [SLASH] + r)[|TURNS_PREFIX|..] == e + [SLASH] + r;
      assert (TURNS_PREFIX + e' + [SLASH] + r')[|TURNS_PREFIX|..] == e' + [SLASH] + r';
    }
    SplitTwo(e, r);
    SplitTwo(e', r');
    UnescapeEscape(id);
    UnescapeEscape(id');
    var parts := Split(e + [SLASH] + r);
    assert parts[0] == e && parts[1] == r && parts[0] == e' && parts[1] == r';
  }

  /** Whatever is parsed, the id is one the builder accepts, and the resource is one trimmed segment. */
  lemma ParsedIsValid(rawPath: Text)
    requires Parse(rawPath).Ok?
    ensures ValidTurnId(Parse(rawPath).value.0)
    ensures Parse(rawPath).value.1 != [] && SLASH !in Parse(rawPath).value.1 && BACKSLASH !in Parse(rawPath).value.1
  {
    var tail := TrimSlashes(TrimSpace(rawPath)[|TURNS_PREFIX|..]);
    SplitHasNoSlash(tail);
    var part := Split(tail)[1];
    TrimLeftSuffix(part);
    TrimRightIsPrefix(TrimLeft(part));
    assert forall b | b in TrimSpace(part) :: b in TrimLeft(part);
    assert forall b | b in TrimLeft(part) :: b in part;
  }

  function Slashes(s: Text): nat {
    if s == [] then 0 else (if s[0] == SLASH then 1 else 0) + Slashes(s[1..])
  }

  lemma {:induction false} SplitCount(s: Text)
    ensures |Split(s)| == 1 + Slashes(s)
  {
    if s != [] {
      SplitCount(s[1..]);
    }
  }

  /** Which paths under the prefix are accepted, by the two segments they need to have. */
  lemma ParseSegments(e: Text, r: Text)
    requires e != [] && SLASH !in e && r != [] && SLASH !in r && Trimmed(r)
    ensures Parse(TURNS_PREFIX + e + [SLASH] + r)
         == (match PathUnescape(e)
             case None => Err(BadEscape)
             case Some(id) => if !ValidTurnId(id) then Err(InvalidTurnId)
                              else if BACKSLASH in r then Err(NotFound) else Ok((id, r)))
  {
    BuiltPathTrims(e, r);
    TrimRightIsPrefix(r);
    TrimSpaceFixed(r);
    ParsedParts(e, r);
    assert TURNS_PREFIX <= TURNS_PREFIX + e + [SLASH] + r;
  }

  lemma OtherPaths(rawPath: Text)
    ensures var path := TrimSpace(rawPath);
            !(TURNS_PREFIX <= path) || Slashes(TrimSlashes(path[|TURNS_PREFIX|..])) != 1 ==> Parse(rawPath) == Err(NotFound)
  {
    var path := TrimSpace(rawPath);
    if TURNS_PREFIX <= path {
      SplitCount(TrimSlashes(path[|TURNS_PREFIX|..]));
    }
  }

  lemma {:induction false} SplitHasNoSlash(s: Text)
    ensures forall part | part in Split(s) :: SLASH !in part
  {
    if s != [] {
      SplitHasNoSlash(s[1..]);
    }
  }
}
