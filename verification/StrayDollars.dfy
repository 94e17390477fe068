/** Templates with dollar signs that start no placeholder: for which of them the order of substitution
    can matter when no value has a dollar sign. */
module StrayDollars {
  import opened Dialplan

  predicate AllLits(ts: seq<Token>) {
    forall k :: 0 <= k < |ts| ==> ts[k].Lit?
  }

  function Spelled(ts: seq<Token>): string {
    if ts == [] then "" else Spelling(ts[0]) + Spelled(ts[1..])
  }

  /** From `i` to `m` stands plain text that begins the placeholder of `j`, and right after it another
      variable. */
  predicate BridgeAt(ts: seq<Token>, i: nat, m: nat, n: Name, j: Name) {
    && i < m < |ts| && AllLits(ts[i..m]) && ts[m] == Var(n) && n != j
    && Spelled(ts[i..m]) <= Placeholder(j)
  }

  ghost predicate Bridged(ts: seq<Token>) {
    exists i: nat, m: nat, n: Name, j: Name :: BridgeAt(ts, i, m, n, j)
  }

  ghost predicate Plain(vals: Values) {
    forall n :: '$' !in vals(n)
  }

  /** A placeholder that the template does not spell appears at a stray dollar sign. */
  ghost predicate MatchAt(ts: seq<Token>, i: nat, done: set<Name>, vals: Values, j: Name) {
    i < |ts| && ts[i] == Lit('$') && Placeholder(j) <= Rendered(ts[i..], done, vals)
  }

  ghost predicate HasMatch(ts: seq<Token>, done: set<Name>, vals: Values, j: Name) {
    exists i: nat :: MatchAt(ts, i, done, vals, j)
  }

  // ----- One replacement, with stray dollar signs about -----

  lemma HeadPasses(t: Token, rest: string, done: set<Name>, vals: Values, j: Name)
    requires Plain(vals) && t != Var(j) && (t == Lit('$') ==> !(Placeholder(j) <= "$" + rest))
    ensures ReplaceAll(Piece(t, done, vals) + rest, Placeholder(j), vals(j))
            == Piece(t, done, vals) + ReplaceAll(rest, Placeholder(j), vals(j))
  {
    PlaceholderShape(j);
    var piece := Piece(t, done, vals);
    if t == Lit('$') {
      assert (piece + rest)[1..] == rest;
    } else {
      match t {
        case Lit(c) => DollarFreeDoesNotTouch([c], j);
        case Var(n) =>
          if n in done {
            DollarFreeDoesNotTouch(vals(n), j);
          } else {
            OtherPlaceholderDoesNotTouch(n, j);
          }
      }
      PassesOver(piece, rest, Placeholder(j), vals(j));
    }
  }

  lemma MatchLater(ts: seq<Token>, done: set<Name>, vals: Values, j: Name)
    requires ts != []
    ensures HasMatch(ts, done, vals, j) <==> MatchAt(ts, 0, done, vals, j) || HasMatch(ts[1..], done, vals, j)
  {
    forall i: nat ensures MatchAt(ts[1..], i, done, vals, j) <==> MatchAt(ts, i + 1, done, vals, j) {
      if i + 1 < |ts| {
        assert ts[1..][i..] == ts[i + 1..];
      }
    }
    if i: nat :| MatchAt(ts, i, done, vals, j) {
      if i > 0 {
        assert MatchAt(ts[1..], i - 1, done, vals, j);
      }
    }
  }

  /** Without a match, the replacement does to the variable what it should. */
  lemma {:induction false} ReplacesWithoutMatch(ts: seq<Token>, done: set<Name>, vals: Values, j: Name)
    requires Plain(vals) && j !in done && !HasMatch(ts, done, vals, j)
    ensures ReplaceAll(Rendered(ts, done, vals), Placeholder(j), vals(j)) == Rendered(ts, done + {j}, vals)
    decreases |ts|
  {
    if ts != [] {
      var rest := Rendered(ts[1..], done, vals);
      MatchLater(ts, done, vals, j);
      ReplacesWithoutMatch(ts[1..], done, vals, j);
      if ts[0] == Var(j) {
        ReplacesHead(rest, Placeholder(j), vals(j));
      } else {
        assert ts[0] == Lit('$') ==> !MatchAt(ts, 0, done, vals, j) && ts[0..] == ts;
        HeadPasses(ts[0], rest, done, vals, j);
      }
    }
  }

  /** With a match it does not: the first one shows. */
  lemma {:induction false} MatchShows(ts: seq<Token>, done: set<Name>, vals: Values, j: Name)
    requires Plain(vals) && j !in done && HasMatch(ts, done, vals, j) && vals(j) != ""
    ensures ReplaceAll(Rendered(ts, done, vals), Placeholder(j), vals(j)) != Rendered(ts, done + {j}, vals)
    decreases |ts|
  {
    assert ts != [];
    MatchLater(ts, done, vals, j);
    if MatchAt(ts, 0, done, vals, j) {
      HeadMatchShows(ts, done, vals, j);
    } else {
      MatchShows(ts[1..], done, vals, j);
      LaterMatchShows(ts, done, vals, j);
    }
  }

  lemma HeadMatchShows(ts: seq<Token>, done: set<Name>, vals: Values, j: Name)
    requires Plain(vals) && MatchAt(ts, 0, done, vals, j) && vals(j) != ""
    ensures ReplaceAll(Rendered(ts, done, vals), Placeholder(j), vals(j)) != Rendered(ts, done + {j}, vals)
  {
    assert ts[0..] == ts;
    assert vals(j)[0] in vals(j);
    assert Rendered(ts, done + {j}, vals)[0] == '$';
  }

  lemma LaterMatchShows(ts: seq<Token>, done: set<Name>, vals: Values, j: Name)
    requires Plain(vals) && j !in done && ts != [] && !MatchAt(ts, 0, done, vals, j)
    requires ReplaceAll(Rendered(ts[1..], done, vals), Placeholder(j), vals(j)) != Rendered(ts[1..], done + {j}, vals)
    ensures ReplaceAll(Rendered(ts, done, vals), Placeholder(j), vals(j)) != Rendered(ts, done + {j}, vals)
  {
    var rest := Rendered(ts[1..], done, vals);
    var left, right := ReplaceAll(rest, Placeholder(j), vals(j)), Rendered(ts[1..], done + {j}, vals);
    SameHead(Piece(ts[0], done + {j}, vals), left, right);
    if ts[0] == Var(j) {
      ReplacesHead(rest, Placeholder(j), vals(j));
    } else {
      assert ts[0] == Lit('$') ==> ts[0..] == ts;
      HeadPasses(ts[0], rest, done, vals, j);
    }
  }

  lemma SameHead(head: string, a: string, b: string)
    ensures head + a == head + b ==> a == b
  {
    assert (head + a)[|head|..] == a && (head + b)[|head|..] == b;
  }

  // ----- A match needs a bridge -----

  lemma TokensSuffix(s: string, i: nat) returns (rest: string)
    requires i <= |Tokens(s)|
    ensures Tokens(s)[i..] == Tokens(rest)
    decreases i
  {
    if i == 0 {
      rest := s;
    } else {
      var t, tail := FirstAndRest(s);
      rest := TokensSuffix(tail, i - 1);
      assert Tokens(s)[i..] == Tokens(tail)[i - 1..];
    }
  }

  /** No run of literals spells a placeholder from its start. */
  lemma LiteralsSpellNoPlaceholder(s: string, i: nat, j: Name)
    requires i < |Tokens(s)| && Tokens(s)[i].Lit?
    ensures !(Placeholder(j) <= Spelled(Tokens(s)[i..]))
  {
    var rest := TokensSuffix(s, i);
    assert Tokens(rest) != [] && Tokens(rest)[0] == Tokens(s)[i];
    SpelledTokens(rest);
  }

  lemma {:induction false} SpelledTokens(s: string)
    ensures Spelled(Tokens(s)) == s
    decreases |s|
  {
    if s != "" {
      var t, rest := FirstAndRest(s);
      SpelledTokens(rest);
      assert Tokens(s)[1..] == Tokens(rest);
    }
  }

  /** Text without dollar signs that the rendered tokens begin with: literals spell all of it, or a
      replaced variable comes before its end. */
  lemma {:induction false} Walk(ts: seq<Token>, q: string, done: set<Name>, vals: Values) returns (m: nat)
    requires '$' !in q && q <= Rendered(ts, done, vals)
    ensures m <= |ts| && AllLits(ts[..m]) && Spelled(ts[..m]) <= q
    ensures Spelled(ts[..m]) == q || (m < |ts| && ts[m].Var? && ts[m].n in done && |Spelled(ts[..m])| < |q|
                                      && Comparable(vals(ts[m].n), q[|Spelled(ts[..m])|..]))
    decreases |q|
  {
    m := 0;
    if q != "" {
      var piece, rest := Piece(ts[0], done, vals), Rendered(ts[1..], done, vals);
      assert q[0] in q;
      if ts[0].Var? {
        if ts[0].n !in done {
          PlaceholderShape(ts[0].n);
          assert false;
        }
        BothPrefixes(piece, rest, q);
      } else {
        assert q[1..] <= rest by {
          assert piece + rest == [q[0]] + rest;
        }
        var k := Walk(ts[1..], q[1..], done, vals);
        m := k + 1;
        assert ts[..m] == [ts[0]] + ts[1..][..k];
        assert Spelled(ts[..m]) == [q[0]] + Spelled(ts[1..][..k]) by {
          assert ts[..m][1..] == ts[1..][..k];
        }
        assert q == [q[0]] + q[1..];
        if Spelled(ts[1..][..k]) != q[1..] {
          assert q[|Spelled(ts[..m])|..] == q[1..][|Spelled(ts[1..][..k])|..];
        }
      }
    }
  }

  lemma BothPrefixes(piece: string, rest: string, q: string)
    requires q <= piece + rest
    ensures Comparable(piece, q)
  {
    PrefixIsComparable(piece, rest, q);
  }

  /** Text that starts with a dollar sign and has no other, and that the tokens do not spell. */
  lemma RunBeforeMatch(ts: seq<Token>, p: string, done: set<Name>, vals: Values) returns (k: nat)
    requires ts != [] && ts[0] == Lit('$') && p != "" && p[0] == '$' && forall l :: 0 < l < |p| ==> p[l] != '$'
    requires p <= Rendered(ts, done, vals) && !(p <= Spelled(ts))
    ensures 0 < k < |ts| && AllLits(ts[..k]) && Spelled(ts[..k]) <= p && |Spelled(ts[..k])| < |p|
    ensures ts[k].Var? && ts[k].n in done && Comparable(vals(ts[k].n), p[|Spelled(ts[..k])|..])
  {
    var q := p[1..];
    assert p == "$" + q;
    assert q <= Rendered(ts[1..], done, vals) by {
      assert Rendered(ts, done, vals) == "$" + Rendered(ts[1..], done, vals);
      assert Rendered(ts, done, vals)[1..] == Rendered(ts[1..], done, vals);
    }
    var m := Walk(ts[1..], q, done, vals);
    k := m + 1;
    assert ts[..k][1..] == ts[1..][..m];
    assert Spelled(ts[..k]) == "$" + Spelled(ts[1..][..m]);
    SpelledPrefix(ts, k);
    assert Spelled(ts[1..][..m]) != q;
    assert p[|Spelled(ts[..k])|..] == q[|Spelled(ts[1..][..m])|..];
  }

  /** A match is made by plain text that begins the placeholder and a value that goes on with it. */
  lemma MatchNeedsBridge(s: string, i: nat, done: set<Name>, vals: Values, j: Name) returns (m: nat, n: Name)
    requires MatchAt(Tokens(s), i, done, vals, j) && j !in done
    ensures BridgeAt(Tokens(s), i, m, n, j) && n in done
    ensures |Spelled(Tokens(s)[i..m])| < |Placeholder(j)|
    ensures Comparable(vals(n), Placeholder(j)[|Spelled(Tokens(s)[i..m])|..])
  {
    PlaceholderShape(j);
    LiteralsSpellNoPlaceholder(s, i, j);
    var ts := Tokens(s);
    assert ts[i..][0] == Lit('$');
    var k := RunBeforeMatch(ts[i..], Placeholder(j), done, vals);
    m := i + k;
    n := ts[i..][k].n;
    assert ts[i..m] == ts[i..][..k] && ts[m] == ts[i..][k];
  }

  lemma {:induction false} SpelledPrefix(ts: seq<Token>, k: nat)
    requires k <= |ts|
    ensures Spelled(ts[..k]) <= Spelled(ts)
    decreases k
  {
    if k > 0 {
      SpelledPrefix(ts[1..], k - 1);
      assert ts[..k][0] == ts[0] && ts[..k][1..] == ts[1..][..k - 1];
      assert Spelled(ts[..k]) == Spelling(ts[0]) + Spelled(ts[1..][..k - 1]);
    }
  }

  // ----- Templates without a bridge -----

  predicate Distinct3(i: Name, j: Name, k: Name) {
    i != j && i != k && j != k
  }

  /** The first two replacements meet no match. */
  lemma TwoPasses(s: string, i: Name, j: Name, k: Name, vals: Values)
    requires Plain(vals) && Distinct3(i, j, k)
    requires !HasMatch(Tokens(s), {}, vals, i) && !HasMatch(Tokens(s), {i}, vals, j)
    ensures Substituted(s, [i, j, k], vals) == ReplaceAll(Rendered(Tokens(s), {i, j}, vals), Placeholder(k), vals(k))
  {
    TokensSpellTheTemplate(s, vals);
    InTurn(s, i, j, k, vals);
    ReplacesWithoutMatch(Tokens(s), {}, vals, i);
    assert {} + {i} == {i} && {i} + {j} == {i, j};
    ReplacesWithoutMatch(Tokens(s), {i}, vals, j);
  }

  lemma AllThree(i: Name, j: Name, k: Name)
    requires Distinct3(i, j, k)
    ensures {i, j} + {k} == ALL_NAMES
  {
    forall n ensures n in {i, j} + {k} <==> n in ALL_NAMES {
    }
  }

  /** None of the three does. */
  lemma ThreePasses(s: string, i: Name, j: Name, k: Name, vals: Values)
    requires Plain(vals) && Distinct3(i, j, k)
    requires !HasMatch(Tokens(s), {}, vals, i) && !HasMatch(Tokens(s), {i}, vals, j)
             && !HasMatch(Tokens(s), {i, j}, vals, k)
    ensures Substituted(s, [i, j, k], vals) == Simultaneous(s, vals)
  {
    TwoPasses(s, i, j, k, vals);
    ReplacesWithoutMatch(Tokens(s), {i, j}, vals, k);
    AllThree(i, j, k);
  }

  lemma UnbridgedHasNoMatch(s: string, done: set<Name>, vals: Values, j: Name)
    requires !Bridged(Tokens(s)) && j !in done
    ensures !HasMatch(Tokens(s), done, vals, j)
  {
    if i: nat :| MatchAt(Tokens(s), i, done, vals, j) {
      var m, n := MatchNeedsBridge(s, i, done, vals, j);
      assert Bridged(Tokens(s));
    }
  }

  /** Without a bridge every order gives the simultaneous substitution, for all plain values. */
  lemma UnbridgedIsSimultaneous(s: string, order: seq<Name>, vals: Values)
    requires !Bridged(Tokens(s)) && IsOrder(order) && Plain(vals)
    ensures Substituted(s, order, vals) == Simultaneous(s, vals)
  {
    var i, j, k := order[0], order[1], order[2];
    assert order == [i, j, k];
    UnbridgedHasNoMatch(s, {}, vals, i);
    UnbridgedHasNoMatch(s, {i}, vals, j);
    UnbridgedHasNoMatch(s, {i, j}, vals, k);
    ThreePasses(s, i, j, k, vals);
  }

  // ----- Templates with a bridge -----

  function Third(i: Name, j: Name): Name {
    if Destination != i && Destination != j then Destination
    else if CallerId != i && CallerId != j then CallerId else CallIdName
  }

  /** `n` completes the placeholder of `j` after the text of length `d`; the other values are a mark. */
  function Completing(n: Name, j: Name, d: nat): Values
    requires d <= |Placeholder(j)|
  {
    x => if x == n then Placeholder(j)[d..] else "#"
  }

  lemma MarkIsForeign(j: Name, d: nat)
    requires d < |Placeholder(j)|
    ensures !Comparable("#", Placeholder(j)[d..])
  {
    assert Placeholder(j)[d..][0] == Placeholder(j)[d];
  }

  /** Where only marks have been put in, no match arises. */
  lemma MarksMakeNoMatch(s: string, done: set<Name>, vals: Values, j: Name)
    requires j !in done && forall x :: x in done ==> vals(x) == "#"
    ensures !HasMatch(Tokens(s), done, vals, j)
  {
    if i: nat :| MatchAt(Tokens(s), i, done, vals, j) {
      var m, n := MatchNeedsBridge(s, i, done, vals, j);
      MarkIsForeign(j, |Spelled(Tokens(s)[i..m])|);
    }
  }

  lemma CompletingIsPlain(n: Name, j: Name, d: nat)
    requires 0 < d <= |Placeholder(j)|
    ensures Plain(Completing(n, j, d))
  {
    PlaceholderShape(j);
  }

  lemma {:induction false} LitsRender(run: seq<Token>, rest: seq<Token>, done: set<Name>, vals: Values)
    requires AllLits(run)
    ensures Rendered(run + rest, done, vals) == Spelled(run) + Rendered(rest, done, vals)
    decreases |run|
  {
    if run == [] {
      assert run + rest == rest;
    } else {
      var tail := run[1..];
      assert run + rest == [run[0]] + (tail + rest);
      RenderedCons(run[0], tail + rest, done, vals);
      LitsRender(tail, rest, done, vals);
    }
  }

  lemma RunThenValue(run: seq<Token>, n: Name, rest: seq<Token>, p: string, done: set<Name>, vals: Values)
    requires AllLits(run) && n in done && Spelled(run) <= p && vals(n) == p[|Spelled(run)|..]
    ensures p <= Rendered(run + ([Var(n)] + rest), done, vals)
  {
    LitsRender(run, [Var(n)] + rest, done, vals);
    RenderedCons(Var(n), rest, done, vals);
    CompletedPrefix(Spelled(run), vals(n), Rendered(rest, done, vals), p);
  }

  lemma CompletedPrefix(text: string, value: string, tail: string, p: string)
    requires text <= p && value == p[|text|..]
    ensures p <= text + (value + tail)
  {
    assert text + value == p;
    assert text + (value + tail) == p + tail;
  }

  lemma CompletedRun(ts: seq<Token>, i: nat, m: nat, n: Name, p: string, done: set<Name>, vals: Values)
    requires i < m < |ts| && AllLits(ts[i..m]) && ts[m] == Var(n) && n in done
    requires Spelled(ts[i..m]) <= p && vals(n) == p[|Spelled(ts[i..m])|..]
    ensures p <= Rendered(ts[i..], done, vals)
  {
    assert ts[i..] == ts[i..m] + ([Var(n)] + ts[m + 1..]);
    RunThenValue(ts[i..m], n, ts[m + 1..], p, done, vals);
  }

  /** The values that complete a placeholder make a match at the bridge. */
  lemma BridgeMakesMatch(s: string, i: nat, m: nat, n: Name, j: Name, done: set<Name>)
    requires BridgeAt(Tokens(s), i, m, n, j) && Tokens(s)[i] == Lit('$') && n in done
    ensures var vals := Completing(n, j, |Spelled(Tokens(s)[i..m])|);
            HasMatch(Tokens(s), done, vals, j)
  {
    var ts := Tokens(s);
    var vals := Completing(n, j, |Spelled(ts[i..m])|);
    CompletedRun(ts, i, m, n, Placeholder(j), done, vals);
    assert MatchAt(ts, i, done, vals, j);
  }

  /** With a bridge, some plain values give different results in two orders. */
  lemma BridgeIsExposed(s: string, i: nat, m: nat, n: Name, j: Name)
    returns (vals: Values, a: seq<Name>, b: seq<Name>)
    requires BridgeAt(Tokens(s), i, m, n, j) && Tokens(s)[i] == Lit('$')
    ensures Plain(vals) && IsOrder(a) && IsOrder(b) && Substituted(s, a, vals) != Substituted(s, b, vals)
  {
    var ts, k := Tokens(s), Third(n, j);
    var d := |Spelled(ts[i..m])|;
    vals := Completing(n, j, d);
    a, b := [k, n, j], [k, j, n];
    assert d > 0;
    CompletingIsPlain(n, j, d);
    MarksMakeNoMatch(s, {}, vals, k);
    MarksMakeNoMatch(s, {k}, vals, n);
    MarksMakeNoMatch(s, {k}, vals, j);
    MarksMakeNoMatch(s, {k, j}, vals, n);
    ThreePasses(s, k, j, n, vals);
    TwoPasses(s, k, n, j, vals);
    BridgeMakesMatch(s, i, m, n, j, {k, n});
    MatchShows(ts, {k, n}, vals, j);
    AllThree(k, n, j);
  }

  /** The result is the same in all orders, whatever the plain values. */
  ghost predicate OrderFree(s: string) {
    forall vals, a, b :: Plain(vals) && IsOrder(a) && IsOrder(b) ==> Substituted(s, a, vals) == Substituted(s, b, vals)
  }

  /** For values without dollar signs, the order cannot matter for a template exactly if no stray dollar
      sign, with plain text after it that begins a placeholder, stands right before a different variable. */
  lemma TemplateIsOrderFreeIff(s: string)
    ensures OrderFree(s) <==> !Bridged(Tokens(s))
  {
    if Bridged(Tokens(s)) {
      var i: nat, m: nat, n: Name, j: Name :| BridgeAt(Tokens(s), i, m, n, j);
      BridgeStartsWithDollar(Tokens(s), i, m, n, j);
      var vals, a, b := BridgeIsExposed(s, i, m, n, j);
    } else {
      forall vals, a, b | Plain(vals) && IsOrder(a) && IsOrder(b)
        ensures Substituted(s, a, vals) == Substituted(s, b, vals)
      {
        UnbridgedIsSimultaneous(s, a, vals);
        UnbridgedIsSimultaneous(s, b, vals);
      }
    }
  }

  lemma BridgeStartsWithDollar(ts: seq<Token>, i: nat, m: nat, n: Name, j: Name)
    requires BridgeAt(ts, i, m, n, j)
    ensures ts[i] == Lit('$')
  {
    PlaceholderShape(j);
    var run := ts[i..m];
    assert run[0] == ts[i];
    assert Spelled(run)[0] == Spelling(run[0])[0];
  }
}
