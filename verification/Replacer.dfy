/**
 * Filling in a template. The replacer is the single pass of `strings.NewReplacer`: at each
 * position of the text the first pair whose key is found there wins, the scan goes on
 * behind the key, and what was inserted is not looked at again.
 */
module Replacer {
  import opened Text

  datatype Pair = Pair(key: string, value: string)

  predicate HaveKeys(pairs: seq<Pair>) {
    forall i :: 0 <= i < |pairs| ==> pairs[i].key != ""
  }

  /** The first pair, from pair `j` on, whose key `s` starts with, or `|pairs|`. */
  function FirstMatch(pairs: seq<Pair>, s: string, j: nat := 0): (m: nat)
    requires j <= |pairs|
    ensures j <= m <= |pairs|
    ensures m < |pairs| ==> HasPrefix(s, pairs[m].key)
    ensures forall k :: j <= k < m ==> !HasPrefix(s, pairs[k].key)
    decreases |pairs| - j
  {
    if j == |pairs| || HasPrefix(s, pairs[j].key) then j else FirstMatch(pairs, s, j + 1)
  }

  /** What the replacer does at the start of `s`: how much it consumes, and what it emits. */
  datatype Step = Step(consumed: nat, emitted: string)

  function StepAt(pairs: seq<Pair>, s: string): (step: Step)
    requires HaveKeys(pairs) && s != ""
    ensures 0 < step.consumed <= |s|
  {
    var m := FirstMatch(pairs, s);
    if m < |pairs| then Step(|pairs[m].key|, pairs[m].value) else Step(1, [s[0]])
  }

  /** What the replacer makes of `s`. */
  function Replaced(pairs: seq<Pair>, s: string): string
    requires HaveKeys(pairs)
    decreases |s|
  {
    if s == "" then ""
    else
      var step := StepAt(pairs, s);
      step.emitted + Replaced(pairs, s[step.consumed..])
  }

  /** The same from position `i` on, by positions of the whole text. */
  function ReplacedFrom(pairs: seq<Pair>, s: string, i: nat): string
    requires HaveKeys(pairs) && i <= |s|
    decreases |s| - i
  {
    if i == |s| then ""
    else
      var step := StepAt(pairs, s[i..]);
      step.emitted + ReplacedFrom(pairs, s, i + step.consumed)
  }

  lemma {:induction false} ReplacedFromIs(pairs: seq<Pair>, s: string, i: nat)
    requires HaveKeys(pairs) && i <= |s|
    ensures ReplacedFrom(pairs, s, i) == Replaced(pairs, s[i..])
    decreases |s| - i
  {
    if i < |s| {
      var step := StepAt(pairs, s[i..]).consumed;
      SuffixOfSuffix(s, i, step);
      ReplacedFromIs(pairs, s, i + step);
    }
  }

  lemma ReplacedFromStep(pairs: seq<Pair>, s: string, i: nat)
    requires HaveKeys(pairs) && i < |s|
    ensures var m := FirstMatch(pairs, s[i..]);
            if m < |pairs| then
              && i + |pairs[m].key| <= |s|
              && ReplacedFrom(pairs, s, i) == pairs[m].value + ReplacedFrom(pairs, s, i + |pairs[m].key|)
            else ReplacedFrom(pairs, s, i) == [s[i]] + ReplacedFrom(pairs, s, i + 1)
  {
    hide StepAt, FirstMatch;
    StepIs(pairs, s, i);
  }

  lemma StepIs(pairs: seq<Pair>, s: string, i: nat)
    requires HaveKeys(pairs) && i < |s|
    ensures var m := FirstMatch(pairs, s[i..]);
            StepAt(pairs, s[i..]) == if m < |pairs| then Step(|pairs[m].key|, pairs[m].value) else Step(1, [s[i]])
  {
    hide FirstMatch;
  }

  lemma ReplacedFromEnd(pairs: seq<Pair>, s: string)
    requires HaveKeys(pairs)
    ensures ReplacedFrom(pairs, s, |s|) == ""
  {
  }

  lemma ReplacedFromStart(pairs: seq<Pair>, s: string)
    requires HaveKeys(pairs)
    ensures ReplacedFrom(pairs, s, 0) == Replaced(pairs, s)
  {
    ReplacedFromIs(pairs, s, 0);
    assert s[0..] == s;
  }

  lemma SuffixOfSuffix(s: string, i: nat, k: nat)
    requires i + k <= |s|
    ensures s[i..][k..] == s[i + k..]
  {
  }

  lemma CopyOne(r: string, s: string, last: nat, i: nat, rest: string)
    requires last <= i < |s|
    ensures r + s[last..i] + ([s[i]] + rest) == r + s[last..i + 1] + rest
  {
    assert s[last..i + 1] == s[last..i] + [s[i]];
  }

  lemma InsertValue(r: string, s: string, last: nat, i: nat, next: nat, value: string, rest: string)
    requires last <= i <= next <= |s|
    ensures r + s[last..i] + (value + rest) == r + s[last..i] + value + s[next..next] + rest
  {
  }

  /** `Replacer.Replace`. */
  method Replace(pairs: seq<Pair>, s: string) returns (r: string)
    requires HaveKeys(pairs)
    ensures r == Replaced(pairs, s)
  {
    hide Replaced, ReplacedFrom, StepAt, FirstMatch;
    r := "";
    var last, i := 0, 0;
    ghost var rest := ReplacedFrom(pairs, s, 0);
    while i < |s|
      invariant 0 <= last <= i <= |s|
      invariant rest == ReplacedFrom(pairs, s, i)
      invariant ReplacedFrom(pairs, s, 0) == r + s[last..i] + rest
    {
      var m := FirstMatch(pairs, s[i..]);
      ReplacedFromStep(pairs, s, i);
      if m < |pairs| {
        var next := i + |pairs[m].key|;
        rest := ReplacedFrom(pairs, s, next);
        InsertValue(r, s, last, i, next, pairs[m].value, rest);
        r := r + s[last..i] + pairs[m].value;
        i := next;
        last := next;
      } else {
        rest := ReplacedFrom(pairs, s, i + 1);
        CopyOne(r, s, last, i, rest);
        i := i + 1;
      }
    }
    r := r + s[last..];
    ReplacedFromEnd(pairs, s);
    ReplacedFromStart(pairs, s);
  }

  // ----- templates -----

  const DELIM: char := '^'
  const NEWLINE: char := '\n'

  /** Literal text alternating with named holes. */
  datatype Template =
    | Tail(text: string)
    | Hole(text: string, name: string, rest: Template)

  function Placeholder(name: string): string {
    [DELIM] + name + [DELIM]
  }

  /** The template as one string, a placeholder at each hole. */
  function Flatten(t: Template): string {
    match t
    case Tail(text) => text
    case Hole(text, name, rest) => text + (Placeholder(name) + Flatten(rest))
  }

  /** The template with a value at each hole: what rendering is for. */
  function Render(t: Template, values: map<string, string>): string
    requires Names(t) <= values.Keys
  {
    match t
    case Tail(text) => text
    case Hole(text, name, rest) => text + (values[name] + Render(rest, values))
  }

  function Names(t: Template): set<string> {
    match t
    case Tail(_) => {}
    case Hole(_, name, rest) => {name} + Names(rest)
  }

  /** No delimiter in the literal text or in a name. */
  predicate Clean(t: Template) {
    match t
    case Tail(text) => DELIM !in text
    case Hole(text, name, rest) => DELIM !in text && DELIM !in name && Clean(rest)
  }

  /** A newline somewhere between any two neighbouring holes. */
  predicate Separated(t: Template) {
    match t
    case Tail(_) => true
    case Hole(_, _, rest) => (rest.Hole? ==> NEWLINE in rest.text) && Separated(rest)
  }

  /** One replacement pair for each name, in the order given. */
  function PairsFor(names: seq<string>, values: map<string, string>): (pairs: seq<Pair>)
    requires forall n :: n in names ==> n in values
    ensures HaveKeys(pairs)
  {
    seq(|names|, i requires 0 <= i < |names| => Pair(Placeholder(names[i]), values[names[i]]))
  }

  // ----- one pass -----

  predicate AllDelimited(pairs: seq<Pair>) {
    forall i :: 0 <= i < |pairs| ==> pairs[i].key != "" && pairs[i].key[0] == DELIM
  }

  lemma NothingMatches(pairs: seq<Pair>, s: string)
    requires AllDelimited(pairs) && s != "" && s[0] != DELIM
    ensures FirstMatch(pairs, s) == |pairs|
  {
  }

  lemma FirstCharIsCopied(pairs: seq<Pair>, c: char, rest: string)
    requires AllDelimited(pairs) && c != DELIM
    ensures Replaced(pairs, [c] + rest) == [c] + Replaced(pairs, rest)
  {
    NothingMatches(pairs, [c] + rest);
    assert ([c] + rest)[1..] == rest;
  }

  /** Text without a delimiter is copied. */
  lemma {:induction false} TextIsCopied(pairs: seq<Pair>, text: string, rest: string)
    requires AllDelimited(pairs) && DELIM !in text
    ensures Replaced(pairs, text + rest) == text + Replaced(pairs, rest)
  {
    hide Replaced;
    if text == "" {
      assert text + rest == rest;
    } else {
      calc {
        Replaced(pairs, text + rest);
        { assert text + rest == [text[0]] + (text[1..] + rest); }
        Replaced(pairs, [text[0]] + (text[1..] + rest));
        { FirstCharIsCopied(pairs, text[0], text[1..] + rest); }
        [text[0]] + Replaced(pairs, text[1..] + rest);
        { TextIsCopied(pairs, text[1..], rest); }
        [text[0]] + (text[1..] + Replaced(pairs, rest));
        { assert [text[0]] + text[1..] == text; }
        text + Replaced(pairs, rest);
      }
    }
  }

  lemma TextAloneIsCopied(pairs: seq<Pair>, text: string)
    requires AllDelimited(pairs) && DELIM !in text
    ensures Replaced(pairs, text) == text
  {
    TextIsCopied(pairs, text, "");
    assert text + "" == text;
  }

  /** Placeholders are prefix-free: only its own placeholder starts with a placeholder. */
  lemma PlaceholderMatchesItself(name: string, other: string, rest: string)
    requires DELIM !in name && DELIM !in other
    ensures HasPrefix(Placeholder(name) + rest, Placeholder(other)) <==> name == other
  {
    var s, p, body := Placeholder(name) + rest, Placeholder(other), name + [DELIM] + rest;
    assert s == [DELIM] + body;
    FirstIndexIs(body, DELIM, |name|);
    if p <= s {
      assert s == p + s[|p|..] && p == [DELIM] + (other + [DELIM]);
      DropFirst(DELIM, body, other + [DELIM], s[|p|..]);
      FirstIndexIs(body, DELIM, |other|);
      assert name == body[..|name|] == other;
    } else {
      assert name == other ==> s == p + rest;
    }
  }

  lemma HoleIsFilled(names: seq<string>, values: map<string, string>, name: string, rest: string)
    requires forall n :: n in names ==> n in values && DELIM !in n
    requires name in names
    ensures Replaced(PairsFor(names, values), Placeholder(name) + rest)
         == values[name] + Replaced(PairsFor(names, values), rest)
  {
    var pairs, s := PairsFor(names, values), Placeholder(name) + rest;
    forall i | 0 <= i < |names| ensures HasPrefix(s, pairs[i].key) <==> names[i] == name {
      PlaceholderMatchesItself(name, names[i], rest);
    }
    assert s[|Placeholder(name)|..] == rest;
  }

  /**
   * The single pass over the flattened template renders it hole by hole, whatever the values
   * are: one that holds placeholders or delimiters is not looked at again.
   */
  lemma {:induction false} SinglePassRenders(names: seq<string>, values: map<string, string>, t: Template)
    requires forall n :: n in names ==> n in values && DELIM !in n
    requires Clean(t) && forall n :: n in Names(t) ==> n in names
    ensures Replaced(PairsFor(names, values), Flatten(t)) == Render(t, values)
  {
    hide Replaced;
    var pairs := PairsFor(names, values);
    match t
    case Tail(text) =>
      TextAloneIsCopied(pairs, text);
    case Hole(text, name, rest) =>
      SinglePassRenders(names, values, rest);
      TextIsCopied(pairs, text, Placeholder(name) + Flatten(rest));
      HoleIsFilled(names, values, name, Flatten(rest));
  }

  /** So the order of the replacement pairs does not matter. */
  lemma PairOrderIsIrrelevant(names: seq<string>, names': seq<string>, values: map<string, string>, t: Template)
    requires multiset(names) == multiset(names')
    requires forall n :: n in names ==> n in values && DELIM !in n
    requires Clean(t) && forall n :: n in Names(t) ==> n in names
    ensures forall n :: n in names' ==> n in values
    ensures Replaced(PairsFor(names, values), Flatten(t)) == Replaced(PairsFor(names', values), Flatten(t))
  {
    forall n ensures n in names <==> n in names' {
      assert n in names <==> n in multiset(names);
      assert n in names' <==> n in multiset(names');
    }
    SinglePassRenders(names, values, t);
    SinglePassRenders(names', values, t);
  }

  // ----- one pass for each placeholder -----

  /** One name's holes turned into text. */
  function Fill(t: Template, name: string, value: string): Template {
    match t
    case Tail(_) => t
    case Hole(text, n, rest) =>
      if n == name then Prepend(text + value, Fill(rest, name, value)) else Hole(text, n, Fill(rest, name, value))
  }

  function Prepend(text: string, t: Template): Template {
    t.(text := text + t.text)
  }

  lemma FlattenPrepended(text: string, t: Template)
    ensures Flatten(Prepend(text, t)) == text + Flatten(t)
  {
  }

  /** A placeholder that is not being replaced is copied, when no hole follows it too closely. */
  lemma OtherHoleIsCopied(pair: Pair, name: string, other: string, rest: Template)
    requires pair.key == Placeholder(name) && DELIM !in name && NEWLINE !in name
    requires other != name && DELIM !in other
    requires Clean(rest) && (rest.Hole? ==> NEWLINE in rest.text)
    ensures Replaced([pair], Placeholder(other) + Flatten(rest)) == Placeholder(other) + Replaced([pair], Flatten(rest))
  {
    hide Replaced;
    var after := Flatten(rest);
    var s := Placeholder(other) + after;
    assert s == [DELIM] + (other + ([DELIM] + after));
    PlaceholderMatchesItself(other, name, after);
    UnmatchedCharIsCopied(pair, DELIM, other + ([DELIM] + after));
    TextIsCopied([pair], other, [DELIM] + after);
    ClosingDelimiterIsNoOpening(name, rest);
    UnmatchedCharIsCopied(pair, DELIM, after);
    var replaced := Replaced([pair], after);
    assert [DELIM] + (other + ([DELIM] + replaced)) == Placeholder(other) + replaced;
  }

  lemma UnmatchedCharIsCopied(pair: Pair, c: char, rest: string)
    requires pair.key != "" && !HasPrefix([c] + rest, pair.key)
    ensures Replaced([pair], [c] + rest) == [c] + Replaced([pair], rest)
  {
    assert ([c] + rest)[1..] == rest;
  }

  lemma ClosingDelimiterIsNoOpening(name: string, rest: Template)
    requires DELIM !in name && NEWLINE !in name
    requires Clean(rest) && (rest.Hole? ==> NEWLINE in rest.text)
    ensures !HasPrefix([DELIM] + Flatten(rest), Placeholder(name))
  {
    var after := Flatten(rest);
    if rest.Hole? {
      FirstIndexIs(after, DELIM, |rest.text|);
      assert after[..|rest.text|] == rest.text;
    }
    if HasPrefix([DELIM] + after, Placeholder(name)) {
      PlaceholderEndsAtDelimiter(name, after);
    }
  }

  lemma PlaceholderEndsAtDelimiter(name: string, after: string)
    requires DELIM !in name && HasPrefix([DELIM] + after, Placeholder(name))
    ensures FirstIndex(after, DELIM) == |name| < |after| && after[..|name|] == name
  {
    var p, s := Placeholder(name), [DELIM] + after;
    assert p == [DELIM] + (name + [DELIM]);
    assert s == p + s[|p|..];
    DropFirst(DELIM, after, name + [DELIM], s[|p|..]);
    FirstIndexIs(after, DELIM, |name|);
  }

  lemma DropFirst(c: char, whole: string, front: string, back: string)
    requires [c] + whole == [c] + front + back
    ensures whole == front + back
  {
    assert ([c] + whole)[1..] == whole;
    assert ([c] + front + back)[1..] == front + back;
  }

  /** Replacing one placeholder everywhere fills that name's holes and nothing else. */
  lemma {:induction false} OnePassFills(t: Template, name: string, value: string)
    requires Clean(t) && Separated(t) && DELIM !in name && NEWLINE !in name
    ensures Replaced([Pair(Placeholder(name), value)], Flatten(t)) == Flatten(Fill(t, name, value))
  {
    hide Replaced;
    var pair := Pair(Placeholder(name), value);
    match t
    case Tail(text) =>
      TextAloneIsCopied([pair], text);
    case Hole(text, n, rest) =>
      OnePassFills(rest, name, value);
      TextIsCopied([pair], text, Placeholder(n) + Flatten(rest));
      if n == name {
        OwnHoleIsFilled(name, value, Flatten(rest));
        FlattenPrepended(text + value, Fill(rest, name, value));
      } else {
        OtherHoleIsCopied(pair, name, n, rest);
      }
  }

  lemma OwnHoleIsFilled(name: string, value: string, rest: string)
    requires DELIM !in name
    ensures Replaced([Pair(Placeholder(name), value)], Placeholder(name) + rest)
         == value + Replaced([Pair(Placeholder(name), value)], rest)
  {
    assert PairsFor([name], map[name := value]) == [Pair(Placeholder(name), value)];
    HoleIsFilled([name], map[name := value], name, rest);
  }

  lemma {:induction false} FillKeeps(t: Template, name: string, value: string)
    requires Clean(t) && Separated(t) && DELIM !in value
    ensures Clean(Fill(t, name, value)) && Separated(Fill(t, name, value))
    ensures Names(Fill(t, name, value)) == Names(t) - {name}
    ensures t.text <= Fill(t, name, value).text
    ensures Fill(t, name, value).Hole? ==> t.Hole?
  {
    match t
    case Tail(_) =>
    case Hole(text, n, rest) =>
      FillKeeps(rest, name, value);
  }

  lemma {:induction false} FillThenRender(t: Template, name: string, values: map<string, string>)
    requires Names(t) <= values.Keys && name in values
    requires Names(Fill(t, name, values[name])) <= values.Keys
    ensures Render(Fill(t, name, values[name]), values) == Render(t, values)
  {
    match t
    case Tail(_) =>
    case Hole(text, n, rest) =>
      FillThenRender(rest, name, values);
      if n == name {
        RenderPrepended(text + values[name], Fill(rest, name, values[name]), values);
      }
  }

  lemma RenderPrepended(text: string, t: Template, values: map<string, string>)
    requires Names(t) <= values.Keys
    ensures Names(Prepend(text, t)) == Names(t) && Render(Prepend(text, t), values) == text + Render(t, values)
  {
  }

  /** The passes one after the other, in the order of `names`. */
  function ReplacedOneByOne(names: seq<string>, values: map<string, string>, s: string): string
    requires forall n :: n in names ==> n in values
  {
    if names == [] then s
    else ReplacedOneByOne(names[1..], values, Replaced([Pair(Placeholder(names[0]), values[names[0]])], s))
  }

  lemma {:induction false} PassesRender(names: seq<string>, values: map<string, string>, t: Template)
    requires forall n :: n in names ==> n in values && DELIM !in n && NEWLINE !in n && DELIM !in values[n]
    requires Clean(t) && Separated(t) && forall n :: n in Names(t) ==> n in names
    ensures ReplacedOneByOne(names, values, Flatten(t)) == Render(t, values)
  {
    if names == [] {
      assert Names(t) == {};
    } else {
      var name := names[0];
      var filled := Fill(t, name, values[name]);
      OnePassFills(t, name, values[name]);
      FillKeeps(t, name, values[name]);
      FillThenRender(t, name, values);
      forall n | n in Names(filled) ensures n in names[1..] {
        assert n in Names(t) && n != name;
      }
      PassesRender(names[1..], values, filled);
    }
  }

  /**
   * When no value holds a delimiter, the one pass over all placeholders gives what one pass
   * for each placeholder gives, in any order of the passes.
   */
  lemma OnePassIsManyPasses(names: seq<string>, order: seq<string>, values: map<string, string>, t: Template)
    requires multiset(names) == multiset(order)
    requires forall n :: n in names ==> n in values && DELIM !in n && NEWLINE !in n && DELIM !in values[n]
    requires Clean(t) && Separated(t) && forall n :: n in Names(t) ==> n in names
    ensures forall n :: n in order ==> n in values
    ensures ReplacedOneByOne(order, values, Flatten(t)) == Replaced(PairsFor(names, values), Flatten(t))
  {
    forall n ensures n in names <==> n in order {
      assert n in names <==> n in multiset(names);
      assert n in order <==> n in multiset(order);
    }
    SinglePassRenders(names, values, t);
    PassesRender(order, values, t);
  }

  // ----- the leftover check -----

  /** A delimiter is left in the rendered text exactly when a value that was inserted holds one. */
  lemma {:induction false} LeftoverDelimiter(t: Template, values: map<string, string>)
    requires Clean(t) && Names(t) <= values.Keys
    ensures DELIM in Render(t, values) <==> exists n :: n in Names(t) && DELIM in values[n]
  {
    match t
    case Tail(_) =>
    case Hole(text, name, rest) =>
      LeftoverDelimiter(rest, values);
      if DELIM in Render(rest, values) {
        var n :| n in Names(rest) && DELIM in values[n];
        assert n in Names(t);
      }
      assert DELIM in Render(t, values) <==> DELIM in values[name] || DELIM in Render(rest, values);
  }
}
