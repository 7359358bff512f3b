/** `${VAR}` and `${VAR:-default}` in plugin configs: the scanner the regular expression stands for,
    lenient `expand`, and strict `expand_config` over nested values. */
module EnvRefs {
  import opened Wrappers

  type Env = map<string, string>

  // ---- the scanner ----

  datatype Piece = Plain(c: char) | Ref(name: string, fallback: Option<string>)

  predicate NameStart(c: char) {
    'A' <= c <= 'Z' || 'a' <= c <= 'z' || c == '_'
  }

  predicate NameChar(c: char) {
    NameStart(c) || '0' <= c <= '9'
  }

  /** What can be written between `${` and `}` and is a reference. */
  predicate WellFormed(p: Piece) {
    p.Ref? ==>
      && p.name != "" && NameStart(p.name[0]) && (forall c <- p.name :: NameChar(c))
      && (p.fallback.Some? ==> '}' !in p.fallback.value)
  }

  function Written(p: Piece): string {
    match p
    case Plain(c) => [c]
    case Ref(name, None) => "${" + name + "}"
    case Ref(name, Some(d)) => "${" + name + ":-" + d + "}"
  }

  function Spelled(ps: seq<Piece>): string {
    if ps == [] then "" else Written(ps[0]) + Spelled(ps[1..])
  }

  /** The end of the run of name characters at `i`. */
  function NameEnd(s: string, i: nat): (j: nat)
    requires i <= |s|
    ensures i <= j <= |s| && (forall k | i <= k < j :: NameChar(s[k])) && (j < |s| ==> !NameChar(s[j]))
    decreases |s| - i
  {
    if i < |s| && NameChar(s[i]) then NameEnd(s, i + 1) else i
  }

  /** The first closing brace at or after `i`, or the end. */
  function BraceAt(s: string, i: nat): (j: nat)
    requires i <= |s|
    ensures i <= j <= |s| && (forall k | i <= k < j :: s[k] != '}') && (j < |s| ==> s[j] == '}')
    decreases |s| - i
  {
    if i < |s| && s[i] != '}' then BraceAt(s, i + 1) else i
  }

  /** The reference the text starts with, if it does. */
  function RefHead(s: string): Option<Piece> {
    if "${" <= s && |s| > 2 && NameStart(s[2]) then
      var j := NameEnd(s, 2);
      var name, tail := s[2..j], s[j..];
      if "}" <= tail then Some(Ref(name, None))
      else if ":-" <= tail && BraceAt(tail, 2) < |tail| then Some(Ref(name, Some(tail[2..BraceAt(tail, 2)])))
      else None
    else None
  }

  lemma PrefixOfSum(a: string, b: string, c: string)
    ensures a + b <= a + (b + c)
  {
  }

  lemma DefaultWritten(name: string, d: string)
    ensures Written(Ref(name, Some(d))) == "${" + name + (":-" + d + "}")
  {
  }

  lemma RefHeadReads(s: string)
    requires RefHead(s).Some?
    ensures var p := RefHead(s).value; p.Ref? && WellFormed(p) && Written(p) <= s
  {
    var j := NameEnd(s, 2);
    var name, tail := s[2..j], s[j..];
    assert s == ("${" + name) + tail;
    if "}" <= tail {
      assert tail == "}" + tail[1..];
      PrefixOfSum("${" + name, "}", tail[1..]);
    } else {
      var k := BraceAt(tail, 2);
      assert tail == (":-" + tail[2..k] + "}") + tail[k + 1..];
      PrefixOfSum("${" + name, ":-" + tail[2..k] + "}", tail[k + 1..]);
      DefaultWritten(name, tail[2..k]);
    }
  }

  /** `finditer`: references from left to right, not overlapping, and the characters between them. */
  function Pieces(s: string): (ps: seq<Piece>)
    decreases |s|
  {
    if s == "" then []
    else if RefHead(s).Some? then
      RefHeadReads(s);
      [RefHead(s).value] + Pieces(s[|Written(RefHead(s).value)|..])
    else [Plain(s[0])] + Pieces(s[1..])
  }

  lemma {:induction false} NameEndsAt(s: string, i: nat, name: string)
    requires i + |name| < |s| && s[i..i + |name|] == name
    requires (forall c <- name :: NameChar(c)) && !NameChar(s[i + |name|])
    ensures NameEnd(s, i) == i + |name|
    decreases |name|
  {
    if name != "" {
      assert s[i..i + |name|][1..] == s[i + 1..i + |name|];
      NameEndsAt(s, i + 1, name[1..]);
    }
  }

  lemma {:induction false} BraceIsAt(s: string, i: nat, d: string)
    requires i + |d| < |s| && s[i..i + |d|] == d && '}' !in d && s[i + |d|] == '}'
    ensures BraceAt(s, i) == i + |d|
    decreases |d|
  {
    if d != "" {
      assert s[i..i + |d|][1..] == s[i + 1..i + |d|];
      BraceIsAt(s, i + 1, d[1..]);
    }
  }

  lemma NameIsRead(s: string, name: string, tail: string)
    requires s == "${" + name + tail && WellFormed(Ref(name, None)) && tail != "" && !NameChar(tail[0])
    ensures "${" <= s && |s| > 2 && NameStart(s[2]) && NameEnd(s, 2) == 2 + |name|
    ensures s[2..2 + |name|] == name && s[2 + |name|..] == tail
  {
    assert s[2] == name[0] && s[2 + |name|] == tail[0];
    assert s[2..2 + |name|] == name;
    NameEndsAt(s, 2, name);
  }

  lemma HeadOfBare(s: string, name: string)
    requires WellFormed(Ref(name, None)) && Written(Ref(name, None)) <= s
    ensures RefHead(s) == Some(Ref(name, None))
  {
    var tail := "}" + s[|Written(Ref(name, None))|..];
    assert s == "${" + name + tail;
    NameIsRead(s, name, tail);
  }

  lemma HeadOfDefaulted(s: string, name: string, d: string)
    requires WellFormed(Ref(name, Some(d))) && Written(Ref(name, Some(d))) <= s
    ensures RefHead(s) == Some(Ref(name, Some(d)))
  {
    DefaultWritten(name, d);
    var w := ":-" + d + "}";
    var rest := s[|"${" + name + w|..];
    assert s == "${" + name + (w + rest);
    NameIsRead(s, name, w + rest);
    assert (w + rest)[2..2 + |d|] == d && (w + rest)[2 + |d|] == '}' && ":-" <= w + rest;
    BraceIsAt(w + rest, 2, d);
  }

  /** The scanner finds a reference exactly where one is written, and the one that is written there. */
  lemma RefHeadIsExact(s: string, p: Piece)
    requires p.Ref?
    ensures RefHead(s) == Some(p) <==> WellFormed(p) && Written(p) <= s
  {
    if RefHead(s) == Some(p) {
      RefHeadReads(s);
    } else if WellFormed(p) && Written(p) <= s {
      if p.fallback.None? { HeadOfBare(s, p.name); } else { HeadOfDefaulted(s, p.name, p.fallback.value); }
    }
  }

  lemma FirstPiece(s: string) returns (p: Piece)
    requires s != ""
    ensures 0 < |Written(p)| <= |s| && Written(p) <= s && Pieces(s) == [p] + Pieces(s[|Written(p)|..])
  {
    p := if RefHead(s).Some? then RefHead(s).value else Plain(s[0]);
    if RefHead(s).Some? { RefHeadReads(s); }
  }

  lemma SpelledOn(p: Piece, ps: seq<Piece>)
    ensures Spelled([p] + ps) == Written(p) + Spelled(ps)
  {
    assert ([p] + ps)[1..] == ps;
  }

  /** Scanning loses nothing: the pieces spell the text again. */
  lemma {:induction false} PiecesSpellTheText(s: string)
    ensures Spelled(Pieces(s)) == s
    decreases |s|
  {
    if s != "" {
      var p := FirstPiece(s);
      var rest := s[|Written(p)|..];
      PiecesSpellTheText(rest);
      assert s == Written(p) + Spelled(Pieces(rest));
      SpelledOn(p, Pieces(rest));
    }
  }

  // ---- substitution ----

  /** `os.environ.get(name)`, with an empty value counting as unset. */
  function Supplied(name: string, env: Env): Option<string> {
    if name in env && env[name] != "" then Some(env[name]) else None
  }

  function Lenient(p: Piece, env: Env): string {
    match p
    case Plain(c) => [c]
    case Ref(name, fallback) => Supplied(name, env).GetOr(fallback.GetOr(""))
  }

  function Substituted(ps: seq<Piece>, env: Env): string {
    if ps == [] then "" else Lenient(ps[0], env) + Substituted(ps[1..], env)
  }

  function Expand(s: string, env: Env): string {
    Substituted(Pieces(s), env)
  }

  /** A bare reference to a variable that is unset or empty. */
  predicate Dangling(p: Piece, env: Env) {
    p.Ref? && p.fallback.None? && Supplied(p.name, env).None?
  }

  predicate Dangles(s: string, env: Env) {
    exists p <- Pieces(s) :: Dangling(p, env)
  }

  datatype Missing = Missing(path: string, name: string)

  /** `_expand_strict` on the pieces: the replacement callback, in order, raising at the first it must. */
  function StrictPieces(ps: seq<Piece>, path: string, env: Env): Result<string, Missing> {
    if ps == [] then Success("")
    else if Dangling(ps[0], env) then Failure(Missing(path, ps[0].name))
    else
      var here := match ps[0]
        case Plain(c) => [c]
        case Ref(name, fallback) =>
          if Supplied(name, env).Some? then Supplied(name, env).value else fallback.value;
      match StrictPieces(ps[1..], path, env)
      case Failure(m) => Failure(m)
      case Success(rest) => Success(here + rest)
  }

  function ExpandStrict(s: string, path: string, env: Env): Result<string, Missing> {
    StrictPieces(Pieces(s), path, env)
  }

  lemma {:induction false} StrictPiecesExact(ps: seq<Piece>, path: string, env: Env)
    ensures match StrictPieces(ps, path, env)
      case Success(t) => t == Substituted(ps, env) && forall p <- ps :: !Dangling(p, env)
      case Failure(m) => m.path == path && exists p <- ps :: Dangling(p, env) && p.name == m.name
  {
    if ps != [] {
      StrictPiecesExact(ps[1..], path, env);
      assert ps == [ps[0]] + ps[1..];
    }
  }

  /** What a piece stands for: a variable that is set and not empty for its value, else the reference for its
      default, or for nothing if it has none; anything else for itself. */
  predicate StandsFor(p: Piece, x: string, env: Env) {
    match p
    case Plain(c) => x == [c]
    case Ref(name, fallback) =>
      if name in env && env[name] != "" then x == env[name] else x == if fallback.Some? then fallback.value else ""
  }

  function Joined(parts: seq<string>): string {
    if parts == [] then "" else parts[0] + Joined(parts[1..])
  }

  /** The expansion of a text is what each of its pieces stands for, one after another. */
  lemma {:induction false} ExpandedPieceByPiece(ps: seq<Piece>, env: Env) returns (parts: seq<string>)
    ensures |parts| == |ps| && Substituted(ps, env) == Joined(parts)
    ensures forall i | 0 <= i < |ps| :: StandsFor(ps[i], parts[i], env)
  {
    if ps == [] {
      parts := [];
    } else {
      var rest := ExpandedPieceByPiece(ps[1..], env);
      parts := [Lenient(ps[0], env)] + rest;
      assert parts[1..] == rest;
    }
  }

  // ---- nested values ----

  datatype Entry = Entry(key: string, value: Value)

  datatype Value =
    | Text(text: string)
    | Table(entries: seq<Entry>)     // a dict, in its order
    | Items(items: seq<Value>)       // a list
    | Scalar(id: int)                // anything else

  function Digits(n: nat): string {
    if n < 10 then ["0123456789"[n]] else Digits(n / 10) + ["0123456789"[n % 10]]
  }

  function Width(v: Value): nat {
    match v case Table(es) => |es| case Items(vs) => |vs| case _ => 0
  }

  /** The `i`-th child of a table or a list. */
  function Child(v: Value, i: nat): Value
    requires i < Width(v)
  {
    if v.Table? then v.entries[i].value else v.items[i]
  }

  /** How an error names that child. `top` is the config itself, whose keys stand alone. */
  function ChildPath(v: Value, i: nat, path: string, top: bool): string
    requires i < Width(v)
  {
    if v.Items? then path + "[" + Digits(i) + "]"
    else if top then v.entries[i].key
    else path + "." + v.entries[i].key
  }

  function Rebuilt(v: Value, children: seq<Value>): Value
    requires v.Table? || v.Items?
    requires |children| == Width(v)
  {
    if v.Items? then Items(children)
    else Table(seq(|children|, i requires 0 <= i < |children| => Entry(v.entries[i].key, children[i])))
  }

  /** `_expand_value`, and `expand_config` for `top`. */
  function ExpandValue(v: Value, path: string, top: bool, env: Env): Result<Value, Missing>
    decreases v, Width(v) + 1
  {
    match v
    case Text(s) =>
      (match ExpandStrict(s, path, env)
       case Success(t) => Success(Text(t))
       case Failure(m) => Failure(m))
    case Scalar(_) => Success(v)
    case _ =>
      match ExpandChildren(v, 0, path, top, env)
      case Success(vs) => Success(Rebuilt(v, vs))
      case Failure(m) => Failure(m)
  }

  function ExpandChildren(v: Value, i: nat, path: string, top: bool, env: Env): (r: Result<seq<Value>, Missing>)
    requires i <= Width(v)
    ensures r.Success? ==> |r.value| == Width(v) - i
    decreases v, Width(v) - i
  {
    if i == Width(v) then Success([])
    else
      match ExpandValue(Child(v, i), ChildPath(v, i, path, top), false, env)
      case Failure(m) => Failure(m)
      case Success(x) =>
        match ExpandChildren(v, i + 1, path, top, env)
        case Failure(m) => Failure(m)
        case Success(xs) => Success([x] + xs)
  }

  function ExpandConfig(config: seq<Entry>, env: Env): Result<Value, Missing> {
    ExpandValue(Table(config), "", true, env)
  }

  // ---- strict refines lenient, at every depth ----

  /** What sits at an address: child positions, from the outside in. */
  function At(v: Value, a: seq<nat>): Option<Value> {
    if a == [] then Some(v)
    else if a[0] < Width(v) then At(Child(v, a[0]), a[1..])
    else None
  }

  /** The name an error gives that place: keys with dots between, and positions in brackets. */
  function PathOf(v: Value, a: seq<nat>, path: string, top: bool): string
    requires At(v, a).Some?
    decreases |a|
  {
    if a == [] then path
    else
      var step := match v
        case Table(es) => if top then es[a[0]].key else path + "." + es[a[0]].key
        case Items(_) => path + "[" + Digits(a[0]) + "]";
      PathOf(Child(v, a[0]), a[1..], step, false)
  }

  /** The same shape here, and the lenient expansion if it is a string. */
  predicate Matches(before: Option<Value>, after: Option<Value>, env: Env) {
    match (before, after)
    case (None, None) => true
    case (Some(Text(s)), Some(Text(t))) => t == Expand(s, env)
    case (Some(Scalar(n)), Some(Scalar(m))) => n == m
    case (Some(Items(xs)), Some(Items(ys))) => |xs| == |ys|
    case (Some(Table(xs)), Some(Table(ys))) => |xs| == |ys| && forall i | 0 <= i < |xs| :: xs[i].key == ys[i].key
    case _ => false
  }

  predicate DanglesAt(v: Value, a: seq<nat>, env: Env) {
    At(v, a).Some? && At(v, a).value.Text? && Dangles(At(v, a).value.text, env)
  }

  lemma {:induction false} ChildrenExpand(v: Value, i: nat, path: string, top: bool, env: Env, j: nat)
    requires i <= j < Width(v) && ExpandChildren(v, i, path, top, env).Success?
    ensures ExpandValue(Child(v, j), ChildPath(v, j, path, top), false, env)
         == Success(ExpandChildren(v, i, path, top, env).value[j - i])
    decreases Width(v) - i
  {
    if i < j { ChildrenExpand(v, i + 1, path, top, env, j); }
  }

  /** A config that expands: every string, at every depth, is what lenient expansion makes of it, the
      shape is untouched, and no string had a bare reference to nothing. */
  lemma {:induction false} StrictRefinesLenient(v: Value, path: string, top: bool, env: Env, a: seq<nat>)
    requires ExpandValue(v, path, top, env).Success?
    ensures Matches(At(v, a), At(ExpandValue(v, path, top, env).value, a), env)
    ensures !DanglesAt(v, a, env)
    decreases |a|
  {
    var x := ExpandValue(v, path, top, env).value;
    if v.Text? {
      StrictPiecesExact(Pieces(v.text), path, env);
    } else if a != [] && a[0] < Width(v) {
      ChildrenExpand(v, 0, path, top, env, a[0]);
      assert Child(x, a[0]) == ExpandChildren(v, 0, path, top, env).value[a[0]];
      StrictRefinesLenient(Child(v, a[0]), ChildPath(v, a[0], path, top), false, env, a[1..]);
    }
  }

  lemma {:induction false} SomeChildFails(v: Value, i: nat, path: string, top: bool, env: Env) returns (j: nat)
    requires i <= Width(v) && ExpandChildren(v, i, path, top, env).Failure?
    ensures i <= j < Width(v)
    ensures ExpandValue(Child(v, j), ChildPath(v, j, path, top), false, env)
         == Failure(ExpandChildren(v, i, path, top, env).error)
    decreases Width(v) - i
  {
    if ExpandValue(Child(v, i), ChildPath(v, i, path, top), false, env).Failure? {
      j := i;
    } else {
      j := SomeChildFails(v, i + 1, path, top, env);
    }
  }

  /** A config that does not: the error names a place, and a variable that a string there leaves dangling. */
  lemma {:induction false} FailureNamesTheSpot(v: Value, path: string, top: bool, env: Env) returns (a: seq<nat>)
    requires ExpandValue(v, path, top, env).Failure?
    ensures var m := ExpandValue(v, path, top, env).error;
      && DanglesAt(v, a, env) && m.path == PathOf(v, a, path, top)
      && exists p <- Pieces(At(v, a).value.text) :: Dangling(p, env) && p.name == m.name
    decreases v
  {
    if v.Text? {
      StrictPiecesExact(Pieces(v.text), path, env);
      a := [];
    } else {
      var j := SomeChildFails(v, 0, path, top, env);
      var rest := FailureNamesTheSpot(Child(v, j), ChildPath(v, j, path, top), false, env);
      a := [j] + rest;
      assert a[1..] == rest;
    }
  }

  /** The string there has `p` in it: a reference without a default to a variable that is unset or empty. */
  predicate BareAt(v: Value, a: seq<nat>, p: Piece, env: Env) {
    && At(v, a).Some? && At(v, a).value.Text? && p in Pieces(At(v, a).value.text)
    && p.Ref? && p.fallback.None? && (p.name !in env || env[p.name] == "")
  }

  lemma DanglingIsBare(v: Value, a: seq<nat>, env: Env)
    ensures DanglesAt(v, a, env) <==> exists p :: BareAt(v, a, p, env)
  {
    if DanglesAt(v, a, env) {
      var p :| p in Pieces(At(v, a).value.text) && Dangling(p, env);
      assert BareAt(v, a, p, env);
    }
  }

  /** `expand_config` refuses exactly the configs in which some string, at some depth, has a bare
      reference to a variable that is unset or empty. */
  lemma RefusesIffDangling(config: seq<Entry>, env: Env)
    ensures ExpandConfig(config, env).Failure? <==> exists a, p :: BareAt(Table(config), a, p, env)
  {
    if ExpandConfig(config, env).Failure? {
      var a := FailureNamesTheSpot(Table(config), "", true, env);
      DanglingIsBare(Table(config), a, env);
    } else {
      forall a, p ensures !BareAt(Table(config), a, p, env) {
        StrictRefinesLenient(Table(config), "", true, env, a);
        DanglingIsBare(Table(config), a, env);
      }
    }
  }
}
