/** Variable substitution in action parameters: repeated replacement, in whatever order the map of
    variables is walked, against one simultaneous substitution. */
module Dialplan {

  datatype Name = Destination | CallerId | CallIdName

  function Placeholder(n: Name): string {
    match n
    case Destination => "${destination}"
    case CallerId => "${caller_id}"
    case CallIdName => "${call_id}"
  }

  type Values = Name -> string

  // ----- Replacement of one placeholder -----

  /** Every occurrence of `target`, from left to right and without overlaps, becomes `value`. */
  function ReplaceAll(s: string, target: string, value: string): string
    requires target != ""
  {
    if s == "" then ""
    else if target <= s then value + ReplaceAll(s[|target|..], target, value)
    else [s[0]] + ReplaceAll(s[1..], target, value)
  }

  /** Walks the variables in the given order. */
  function Substituted(s: string, order: seq<Name>, vals: Values): string
    decreases |order|
  {
    if order == [] then s
    else Substituted(ReplaceAll(s, Placeholder(order[0]), vals(order[0])), order[1..], vals)
  }

  predicate IsOrder(order: seq<Name>) {
    && |order| == 3
    && order[0] != order[1] && order[0] != order[2] && order[1] != order[2]
  }

  // ----- Simultaneous substitution -----

  datatype Token = Lit(c: char) | Var(n: Name)

  function Spelling(t: Token): (p: string)
    ensures p != ""
  {
    match t
    case Lit(c) => [c]
    case Var(n) => Placeholder(n)
  }

  function First(s: string): (t: Token)
    requires s != ""
    ensures Spelling(t) <= s
    ensures t.Lit? ==> forall n :: !(Placeholder(n) <= s)
  {
    if Placeholder(Destination) <= s then Var(Destination)
    else if Placeholder(CallerId) <= s then Var(CallerId)
    else if Placeholder(CallIdName) <= s then Var(CallIdName)
    else Lit(s[0])
  }

  /** The template as literal characters and variables. */
  function Tokens(s: string): seq<Token> {
    if s == "" then [] else [First(s)] + Tokens(s[|Spelling(First(s))|..])
  }

  /** Variables in `done` appear as their values, the others as their placeholders. */
  function Piece(t: Token, done: set<Name>, vals: Values): string {
    match t
    case Lit(c) => [c]
    case Var(n) => if n in done then vals(n) else Placeholder(n)
  }

  function Rendered(ts: seq<Token>, done: set<Name>, vals: Values): string {
    if ts == [] then "" else Piece(ts[0], done, vals) + Rendered(ts[1..], done, vals)
  }

  const ALL_NAMES: set<Name> := {Destination, CallerId, CallIdName}

  function Simultaneous(s: string, vals: Values): string {
    Rendered(Tokens(s), ALL_NAMES, vals)
  }

  /** No dollar sign but those that start a placeholder. */
  predicate Clean(s: string) {
    Lit('$') !in Tokens(s)
  }

  // ----- What can go wrong -----

  /** A tail of `value` that starts with `p`, or that `p` starts with. */
  predicate Touches(value: string, p: string) {
    exists k :: 0 <= k < |value| && Comparable(value[k..], p)
  }

  predicate Comparable(a: string, b: string) {
    a <= b || b <= a
  }

  /** No value holds, or ends with the beginning of, the placeholder of another variable, unless that
      variable's value is its own placeholder. */
  ghost predicate Harmless(vals: Values) {
    forall i, j :: i != j && vals(j) != Placeholder(j) ==> !Touches(vals(i), Placeholder(j))
  }

  // ----- Facts about the placeholders -----

  lemma PlaceholderShape(n: Name)
    ensures var p := Placeholder(n);
            |p| > 0 && p[0] == '$' && forall k :: 0 < k < |p| ==> p[k] != '$'
  {
  }

  lemma PlaceholdersDiffer(i: Name, j: Name)
    requires i != j
    ensures !Comparable(Placeholder(i), Placeholder(j))
  {
    assert Placeholder(Destination)[2] == 'd' && Placeholder(CallerId)[2] == 'c' && Placeholder(CallIdName)[2] == 'c';
    assert Placeholder(CallerId)[6] == 'e' && Placeholder(CallIdName)[6] == '_';
  }

  lemma DollarFreeDoesNotTouch(value: string, n: Name)
    requires '$' !in value
    ensures !Touches(value, Placeholder(n))
  {
    PlaceholderShape(n);
    forall k | 0 <= k < |value| ensures !Comparable(value[k..], Placeholder(n)) {
      assert value[k..][0] == value[k];
      assert value[k] in value;
    }
  }

  lemma OtherPlaceholderDoesNotTouch(i: Name, j: Name)
    requires i != j
    ensures !Touches(Placeholder(i), Placeholder(j))
  {
    var p := Placeholder(i);
    PlaceholderShape(i);
    PlaceholderShape(j);
    forall k | 0 <= k < |p| ensures !Comparable(p[k..], Placeholder(j)) {
      if k == 0 {
        PlaceholdersDiffer(i, j);
        assert p[0..] == p;
      } else {
        assert p[k..][0] == p[k];
      }
    }
  }

  // ----- One replacement -----

  lemma PrefixIsComparable(chunk: string, rest: string, p: string)
    ensures p <= chunk + rest ==> Comparable(chunk, p)
  {
    if p <= chunk + rest {
      if |p| <= |chunk| {
        assert p == (chunk + rest)[..|p|] == chunk[..|p|];
      } else {
        assert chunk == (chunk + rest)[..|chunk|] == p[..|chunk|];
      }
    }
  }

  /** Text that does not touch a placeholder is passed over whole, whatever follows it. */
  lemma {:induction false} PassesOver(chunk: string, rest: string, p: string, v: string)
    requires p != "" && !Touches(chunk, p)
    ensures ReplaceAll(chunk + rest, p, v) == chunk + ReplaceAll(rest, p, v)
    decreases |chunk|
  {
    if chunk == "" {
      assert chunk + rest == rest;
    } else {
      TouchesNothingLater(chunk, p);
      PrefixIsComparable(chunk, rest, p);
      var tail := chunk[1..];
      assert chunk + rest == [chunk[0]] + (tail + rest);
      PassesOver(tail, rest, p, v);
      StepsOver(chunk[0], tail + rest, p, v);
      assert [chunk[0]] + (tail + ReplaceAll(rest, p, v)) == chunk + ReplaceAll(rest, p, v);
    }
  }

  lemma TouchesNothingLater(chunk: string, p: string)
    requires chunk != "" && !Touches(chunk, p)
    ensures !Comparable(chunk, p) && !Touches(chunk[1..], p)
  {
    assert chunk[0..] == chunk;
    forall k | 0 <= k < |chunk[1..]| ensures !Comparable(chunk[1..][k..], p) {
      assert chunk[1..][k..] == chunk[k + 1..];
    }
  }

  lemma StepsOver(c: char, rest: string, p: string, v: string)
    requires p != "" && !(p <= [c] + rest)
    ensures ReplaceAll([c] + rest, p, v) == [c] + ReplaceAll(rest, p, v)
  {
    assert ([c] + rest)[1..] == rest;
  }

  lemma ReplacesHead(rest: string, p: string, v: string)
    requires p != ""
    ensures ReplaceAll(p + rest, p, v) == v + ReplaceAll(rest, p, v)
  {
    assert (p + rest)[|p|..] == rest;
  }

  lemma {:induction false} ReplacingByItself(s: string, p: string)
    requires p != ""
    ensures ReplaceAll(s, p, p) == s
    decreases |s|
  {
    if s != "" {
      if p <= s {
        ReplacingByItself(s[|p|..], p);
        assert p + s[|p|..] == s;
      } else {
        ReplacingByItself(s[1..], p);
        assert [s[0]] + s[1..] == s;
      }
    }
  }

  lemma OtherPieceDoesNotTouch(t: Token, done: set<Name>, vals: Values, j: Name)
    requires Harmless(vals) && vals(j) != Placeholder(j) && t != Var(j) && t != Lit('$')
    ensures !Touches(Piece(t, done, vals), Placeholder(j))
  {
    match t {
      case Lit(c) => DollarFreeDoesNotTouch([c], j);
      case Var(n) =>
        if n !in done {
          OtherPlaceholderDoesNotTouch(n, j);
        }
    }
  }

  /** One more variable replaced. */
  lemma {:induction false} ReplacesOne(ts: seq<Token>, done: set<Name>, vals: Values, j: Name)
    requires Lit('$') !in ts && j !in done && Harmless(vals) && vals(j) != Placeholder(j)
    ensures ReplaceAll(Rendered(ts, done, vals), Placeholder(j), vals(j)) == Rendered(ts, done + {j}, vals)
    decreases |ts|
  {
    if ts != [] {
      var rest := Rendered(ts[1..], done, vals);
      ReplacesOne(ts[1..], done, vals, j);
      if ts[0] == Var(j) {
        ReplacesHead(rest, Placeholder(j), vals(j));
      } else {
        OtherPieceDoesNotTouch(ts[0], done, vals, j);
        PassesOver(Piece(ts[0], done, vals), rest, Placeholder(j), vals(j));
      }
    }
  }

  lemma {:induction false} OwnPlaceholderChangesNothing(ts: seq<Token>, done: set<Name>, vals: Values, j: Name)
    requires vals(j) == Placeholder(j)
    ensures Rendered(ts, done + {j}, vals) == Rendered(ts, done, vals)
    decreases |ts|
  {
    if ts != [] {
      OwnPlaceholderChangesNothing(ts[1..], done, vals, j);
    }
  }

  // ----- The whole walk -----

  lemma {:induction false} WalkRenders(ts: seq<Token>, done: set<Name>, order: seq<Name>, vals: Values)
    requires Lit('$') !in ts && Harmless(vals)
    requires forall k :: 0 <= k < |order| ==> order[k] !in done
    requires forall k, l :: 0 <= k < l < |order| ==> order[k] != order[l]
    ensures Substituted(Rendered(ts, done, vals), order, vals)
            == Rendered(ts, done + (set n | n in order), vals)
    decreases |order|
  {
    if order == [] {
      assert done + (set n | n in order) == done;
    } else {
      var j := order[0];
      if vals(j) == Placeholder(j) {
        ReplacingByItself(Rendered(ts, done, vals), Placeholder(j));
        OwnPlaceholderChangesNothing(ts, done, vals, j);
      } else {
        ReplacesOne(ts, done, vals, j);
      }
      WalkRenders(ts, done + {j}, order[1..], vals);
      assert done + {j} + (set n | n in order[1..]) == done + (set n | n in order);
    }
  }

  lemma RenderedCons(t: Token, ts: seq<Token>, done: set<Name>, vals: Values)
    ensures Rendered([t] + ts, done, vals) == Piece(t, done, vals) + Rendered(ts, done, vals)
  {
    assert ([t] + ts)[1..] == ts;
  }

  lemma PieceIsSpelling(t: Token, vals: Values)
    ensures Piece(t, {}, vals) == Spelling(t)
  {
  }

  lemma FirstAndRest(s: string) returns (t: Token, rest: string)
    requires s != ""
    ensures s == Spelling(t) + rest && |rest| < |s| && Tokens(s) == [t] + Tokens(rest)
  {
    t := First(s);
    rest := s[|Spelling(t)|..];
  }

  lemma {:induction false} TokensSpellTheTemplate(s: string, vals: Values)
    ensures Rendered(Tokens(s), {}, vals) == s
    decreases |s|
  {
    if s != "" {
      var t, rest := FirstAndRest(s);
      TokensSpellTheTemplate(rest, vals);
      RenderedCons(t, Tokens(rest), {}, vals);
      PieceIsSpelling(t, vals);
    }
  }

  lemma OrderIsDistinct(order: seq<Name>)
    requires IsOrder(order)
    ensures forall k, l :: 0 <= k < l < |order| ==> order[k] != order[l]
    ensures (set n | n in order) == ALL_NAMES
  {
    assert order == [order[0], order[1], order[2]];
    forall n ensures n in order <==> n in ALL_NAMES {
      assert n == order[0] || n == order[1] || n == order[2];
    }
  }

  lemma HarmlessMeansSimultaneous(s: string, order: seq<Name>, vals: Values)
    requires Clean(s) && IsOrder(order) && Harmless(vals)
    ensures Substituted(s, order, vals) == Simultaneous(s, vals)
  {
    TokensSpellTheTemplate(s, vals);
    OrderIsDistinct(order);
    WalkRenders(Tokens(s), {}, order, vals);
    assert {} + (set n | n in order) == ALL_NAMES;
  }

  /** Plain values, on a template with no stray dollar sign, give the same result in every order. */
  lemma PlainValuesAreSimultaneous(s: string, order: seq<Name>, vals: Values)
    requires Clean(s) && IsOrder(order) && forall n :: '$' !in vals(n)
    ensures Substituted(s, order, vals) == Simultaneous(s, vals)
  {
    forall i, j | i != j && vals(j) != Placeholder(j) ensures !Touches(vals(i), Placeholder(j)) {
      DollarFreeDoesNotTouch(vals(i), j);
    }
    HarmlessMeansSimultaneous(s, order, vals);
  }

  // ----- Values that do harm -----

  lemma {:induction false} LengthFollows(s: string, p: string, v: string)
    requires p != ""
    ensures |v| >= |p| ==> |ReplaceAll(s, p, v)| >= |s|
    ensures |v| <= |p| ==> |ReplaceAll(s, p, v)| <= |s|
    decreases |s|
  {
    if s != "" {
      LengthFollows(if p <= s then s[|p|..] else s[1..], p, v);
    }
  }

  /** Replacing something that occurs by something else makes a difference. */
  lemma {:induction false} ReplacingChanges(s: string, p: string, v: string, k: nat)
    requires p != "" && v != p && k < |s| && p <= s[k..]
    ensures ReplaceAll(s, p, v) != s
    decreases k
  {
    if p <= s {
      var rest := s[|p|..];
      LengthFollows(rest, p, v);
      assert s == p + rest;
      if |v| == |p| {
        assert (v + ReplaceAll(rest, p, v))[..|p|] == v;
        assert s[..|p|] == p;
      }
    } else {
      assert s[k..] == s[1..][k - 1..];
      ReplacingChanges(s[1..], p, v, k - 1);
      assert ([s[0]] + ReplaceAll(s[1..], p, v))[1..] == ReplaceAll(s[1..], p, v);
    }
  }

  lemma {:induction false} PlainTextIsLiteral(s: string, vals: Values)
    requires '$' !in s
    ensures Clean(s) && Rendered(Tokens(s), ALL_NAMES, vals) == s
    decreases |s|
  {
    if s != "" {
      var t, rest := FirstAndRest(s);
      PlainFirst(s, t, rest);
      PlainTextIsLiteral(rest, vals);
      RenderedCons(t, Tokens(rest), ALL_NAMES, vals);
    }
  }

  lemma PlainFirst(s: string, t: Token, rest: string)
    requires s != "" && '$' !in s && s == Spelling(t) + rest
    ensures t == Lit(s[0]) && t != Lit('$') && s == [s[0]] + rest && '$' !in rest
  {
    assert s[0] in s;
    assert Spelling(t)[0] == s[0];
    if t.Var? {
      PlaceholderShape(t.n);
    }
    assert forall c :: c in rest ==> c in s;
  }

  lemma PlainTextIsPassedOver(s: string, n: Name, v: string)
    requires '$' !in s
    ensures ReplaceAll(s, Placeholder(n), v) == s
  {
    DollarFreeDoesNotTouch(s, n);
    PlaceholderShape(n);
    PassesOver(s, "", Placeholder(n), v);
    assert s + "" == s;
  }

  /** A template that starts with a variable and goes on in plain text. */
  lemma VariableThenText(i: Name, rest: string, vals: Values)
    requires '$' !in rest
    ensures Clean(Placeholder(i) + rest) && Simultaneous(Placeholder(i) + rest, vals) == vals(i) + rest
  {
    var s := Placeholder(i) + rest;
    PlaceholderShape(i);
    assert Placeholder(i) <= s;
    forall n | n != i ensures !(Placeholder(n) <= s) {
      PlaceholdersDiffer(i, n);
      PrefixIsComparable(Placeholder(i), rest, Placeholder(n));
    }
    assert First(s) == Var(i);
    assert s[|Placeholder(i)|..] == rest;
    assert Tokens(s) == [Var(i)] + Tokens(rest);
    PlainTextIsLiteral(rest, vals);
    RenderedCons(Var(i), Tokens(rest), ALL_NAMES, vals);
  }

  /** The three variables that the dialplan knows, by name. */
  lemma VariablesByName(vals: Values)
    ensures Simultaneous("${destination}", vals) == vals(Destination)
    ensures Simultaneous("${caller_id}", vals) == vals(CallerId)
    ensures Simultaneous("${call_id}", vals) == vals(CallIdName)
  {
    forall n: Name ensures Simultaneous(Placeholder(n), vals) == vals(n) {
      VariableThenText(n, "", vals);
      assert Placeholder(n) + "" == Placeholder(n) && vals(n) + "" == vals(n);
    }
    assert Placeholder(Destination) == "${destination}" && Placeholder(CallerId) == "${caller_id}";
    assert Placeholder(CallIdName) == "${call_id}";
  }

  /** Walked third variable first, then `i`, then `j`. */
  lemma WalkOverVariableThenText(m: Name, i: Name, j: Name, rest: string, vals: Values)
    requires m != i && '$' !in rest
    ensures Substituted(Placeholder(i) + rest, [m, i, j], vals) == ReplaceAll(vals(i) + rest, Placeholder(j), vals(j))
  {
    PlaceholderShape(m);
    PlaceholderShape(i);
    OtherPlaceholderDoesNotTouch(i, m);
    PassesOver(Placeholder(i), rest, Placeholder(m), vals(m));
    PlainTextIsPassedOver(rest, m, vals(m));
    ReplacesHead(rest, Placeholder(i), vals(i));
    PlainTextIsPassedOver(rest, i, vals(i));
    InTurn(Placeholder(i) + rest, m, i, j, vals);
  }

  /** Plain text after a value that touches `p` can make it contain `p`. */
  lemma CompletedBy(value: string, p: string, k: nat) returns (rest: string)
    requires k < |value| && p != "" && Comparable(value[k..], p) && forall l :: 0 < l < |p| ==> p[l] != '$'
    ensures '$' !in rest && p <= (value + rest)[k..]
  {
    var tail := value[k..];
    rest := if |tail| <= |p| then p[|tail|..] else "";
    assert (value + rest)[k..] == tail + rest;
    if |tail| <= |p| {
      assert tail + rest == p;
    }
  }

  /** If a value touches another variable's placeholder, some template exposes it. */
  lemma TouchingValueIsExposed(i: Name, j: Name, vals: Values) returns (s: string, order: seq<Name>)
    requires i != j && vals(j) != Placeholder(j) && Touches(vals(i), Placeholder(j))
    ensures Clean(s) && IsOrder(order) && Substituted(s, order, vals) != Simultaneous(s, vals)
  {
    var p := Placeholder(j);
    PlaceholderShape(j);
    var k :| 0 <= k < |vals(i)| && Comparable(vals(i)[k..], p);
    var rest := CompletedBy(vals(i), p, k);
    var m := if Destination != i && Destination != j then Destination
             else if CallerId != i && CallerId != j then CallerId else CallIdName;
    s, order := Placeholder(i) + rest, [m, i, j];
    VariableThenText(i, rest, vals);
    WalkOverVariableThenText(m, i, j, rest, vals);
    ReplacingChanges(vals(i) + rest, p, vals(j), k);
  }

  ghost predicate OrderNeverMatters(vals: Values) {
    forall s, order :: Clean(s) && IsOrder(order) ==> Substituted(s, order, vals) == Simultaneous(s, vals)
  }

  /** Walking the map, in every order and on every clean template, is the simultaneous substitution
      exactly if no value touches the placeholder of another variable. */
  lemma SubstitutionIsSimultaneousIff(vals: Values)
    ensures OrderNeverMatters(vals) <==> Harmless(vals)
  {
    if Harmless(vals) {
      forall s, order | Clean(s) && IsOrder(order) ensures Substituted(s, order, vals) == Simultaneous(s, vals) {
        HarmlessMeansSimultaneous(s, order, vals);
      }
    } else {
      var i, j :| i != j && vals(j) != Placeholder(j) && Touches(vals(i), Placeholder(j));
      var s, order := TouchingValueIsExposed(i, j, vals);
    }
  }

  /** A stray dollar sign in the template is enough to make the order matter, even for plain values. */
  lemma StrayDollarDependsOnOrder() returns (s: string, vals: Values, a: seq<Name>, b: seq<Name>)
    ensures forall n :: '$' !in vals(n)
    ensures IsOrder(a) && IsOrder(b) && Substituted(s, a, vals) != Substituted(s, b, vals)
  {
    vals := (n: Name) => if n.Destination? then "{call_id}" else "1";
    s := "$" + Placeholder(Destination);
    a, b := [CallerId, CallIdName, Destination], [CallerId, Destination, CallIdName];
    assert "$" + vals(Destination) == Placeholder(CallIdName);
    StrayDollarEitherWay(vals);
  }

  /** The stray dollar sign and the first value make up another placeholder, which is replaced in its
      turn or not. */
  lemma StrayDollarEitherWay(vals: Values)
    requires "$" + vals(Destination) == Placeholder(CallIdName)
    ensures var s := "$" + Placeholder(Destination);
            && Substituted(s, [CallerId, CallIdName, Destination], vals) == Placeholder(CallIdName)
            && Substituted(s, [CallerId, Destination, CallIdName], vals) == vals(CallIdName)
  {
    var s, p := "$" + Placeholder(Destination), Placeholder(CallIdName);
    StrayDollarStays(CallerId, vals(CallerId));
    StrayDollarStays(CallIdName, vals(CallIdName));
    StrayDollarStays(Destination, vals(Destination));
    ReplacesHead("", p, vals(CallIdName));
    assert p + "" == p;
    InTurn(s, CallerId, CallIdName, Destination, vals);
    InTurn(s, CallerId, Destination, CallIdName, vals);
  }

  lemma InTurn(s: string, i: Name, j: Name, k: Name, vals: Values)
    ensures Substituted(s, [i, j, k], vals)
            == ReplaceAll(ReplaceAll(ReplaceAll(s, Placeholder(i), vals(i)), Placeholder(j), vals(j)), Placeholder(k),
                vals(k))
  {
    SubstitutedSnoc(s, [i, j], k, vals);
    SubstitutedSnoc(s, [i], j, vals);
    SubstitutedSnoc(s, [], i, vals);
    assert [i, j] + [k] == [i, j, k] && [i] + [j] == [i, j] && [] + [i] == [i];
  }

  lemma StrayDollarStays(n: Name, v: string)
    ensures ReplaceAll("$" + Placeholder(Destination), Placeholder(n), v)
            == if n.Destination? then "$" + v else "$" + Placeholder(Destination)
  {
    var s := "$" + Placeholder(Destination);
    PlaceholderShape(n);
    assert s[1] == '$';
    assert s[1..] == Placeholder(Destination);
    assert Placeholder(Destination) + "" == Placeholder(Destination);
    if n.Destination? {
      ReplacesHead("", Placeholder(n), v);
    } else {
      OtherPlaceholderDoesNotTouch(Destination, n);
      PassesOver(Placeholder(Destination), "", Placeholder(n), v);
    }
  }

  // ----- The loop -----

  lemma {:induction false} SubstitutedSnoc(s: string, order: seq<Name>, n: Name, vals: Values)
    ensures Substituted(s, order + [n], vals) == ReplaceAll(Substituted(s, order, vals), Placeholder(n), vals(n))
    decreases |order|
  {
    if order == [] {
      assert order + [n] == [n];
    } else {
      assert (order + [n])[1..] == order[1..] + [n];
      SubstitutedSnoc(ReplaceAll(s, Placeholder(order[0]), vals(order[0])), order[1..], n, vals);
    }
  }

  /** The variables are taken in an order nobody controls. */
  method SubstituteVars(params: string, vals: Values) returns (r: string, ghost order: seq<Name>)
    ensures IsOrder(order) && r == Substituted(params, order, vals)
    ensures Clean(params) && Harmless(vals) ==> r == Simultaneous(params, vals)
  {
    r, order := params, [];
    if |params| == 0 {
      order := [Destination, CallerId, CallIdName];
      EmptyStaysEmpty(order, vals);
      HarmlessOrNot(params, order, vals);
      return;
    }
    var todo := ALL_NAMES;
    while todo != {}
      invariant r == Substituted(params, order, vals)
      invariant |order| + |todo| == 3
      invariant forall k :: 0 <= k < |order| ==> order[k] !in todo
      invariant forall k, l :: 0 <= k < l < |order| ==> order[k] != order[l]
      decreases |todo|
    {
      var n :| n in todo;
      SubstitutedSnoc(params, order, n, vals);
      r := ReplaceAll(r, Placeholder(n), vals(n));
      order := order + [n];
      todo := todo - {n};
    }
    HarmlessOrNot(params, order, vals);
  }

  lemma HarmlessOrNot(s: string, order: seq<Name>, vals: Values)
    requires IsOrder(order)
    ensures Clean(s) && Harmless(vals) ==> Substituted(s, order, vals) == Simultaneous(s, vals)
  {
    if Clean(s) && Harmless(vals) {
      HarmlessMeansSimultaneous(s, order, vals);
    }
  }

  lemma {:induction false} EmptyStaysEmpty(order: seq<Name>, vals: Values)
    ensures Substituted("", order, vals) == ""
    decreases |order|
  {
    if order != [] {
      EmptyStaysEmpty(order[1..], vals);
    }
  }
}
