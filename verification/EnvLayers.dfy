/** References of the form ${NAME} in environment values. */
module References {
  import opened Wrappers

  datatype Token = Lit(ch: char) | Ref(name: string)

  predicate NameStart(ch: char) { 'A' <= ch <= 'Z' || ch == '_' }
  predicate NameChar(ch: char) { NameStart(ch) || '0' <= ch <= '9' }
  predicate IsName(s: string) { s != "" && NameStart(s[0]) && forall k :: 0 <= k < |s| ==> NameChar(s[k]) }

  function Text(name: string): string { "${" + name + "}" }

  /** The number of leading name characters. */
  function NameLength(s: string): (n: nat)
    ensures n <= |s| && (forall k :: 0 <= k < n ==> NameChar(s[k])) && (n < |s| ==> !NameChar(s[n]))
  {
    if s != "" && NameChar(s[0]) then NameLength(s[1..]) + 1 else 0
  }

  /** The name of the reference that s starts with. */
  function RefAt(s: string): (r: Option<string>)
    ensures r.Some? ==> IsName(r.value) && |r.value| + 3 <= |s| && s[..|r.value| + 3] == Text(r.value)
  {
    if |s| >= 3 && s[0] == '$' && s[1] == '{' && NameStart(s[2]) then
      var n := NameLength(s[2..]);
      if n + 2 < |s| && s[n + 2] == '}' then Some(s[2..n + 2]) else None
    else None
  }

  function Tokenize(s: string): seq<Token>
    decreases |s|
  {
    if s == "" then []
    else
      var r := RefAt(s);
      if r.Some? then [Ref(r.value)] + Tokenize(s[|r.value| + 3..]) else [Lit(s[0])] + Tokenize(s[1..])
  }

  function Render(tokens: seq<Token>): string {
    if tokens == [] then ""
    else (if tokens[0].Lit? then [tokens[0].ch] else Text(tokens[0].name)) + Render(tokens[1..])
  }

  /** Tokens lose nothing. */
  lemma {:induction false} RenderTokenize(s: string)
    ensures Render(Tokenize(s)) == s
    decreases |s|
  {
    if s != "" {
      var r := RefAt(s);
      if r.Some? {
        RenderTokenize(s[|r.value| + 3..]);
        assert s == s[..|r.value| + 3] + s[|r.value| + 3..];
      } else {
        RenderTokenize(s[1..]);
      }
    }
  }

  lemma {:induction false} NameLengthBefore(a: string, b: string)
    requires b != "" && !NameChar(b[0])
    ensures NameLength(a + b) == NameLength(a)
  {
    if a != "" {
      assert (a + b)[1..] == a[1..] + b;
      NameLengthBefore(a[1..], b);
    }
  }

  /** Whether text starts with a reference does not depend on a later dollar sign. */
  lemma RefAtBefore(a: string, b: string)
    requires a != "" && b != "" && b[0] == '$'
    ensures RefAt(a + b) == RefAt(a)
  {
    var s := a + b;
    if |a| >= 3 {
      assert s[2..] == a[2..] + b;
      NameLengthBefore(a[2..], b);
      var n := NameLength(a[2..]);
      if n + 2 < |a| {
        assert s[2..n + 2] == a[2..n + 2];
      } else {
        assert s[n + 2] == '$';
      }
    } else if |a| == 2 {
      assert s[2] == '$';
    } else {
      assert s[1] == '$';
    }
  }

  lemma RefAtStart(name: string, b: string)
    requires IsName(name)
    ensures RefAt(Text(name) + b) == Some(name)
  {
    var s := Text(name) + b;
    assert s[2..] == name + ("}" + b);
    NameLengthBefore(name, "}" + b);
    AllName(name);
    assert s[2] == name[0] && s[2..|name| + 2] == name;
  }

  /** Every reference in the text is found, and nothing around it is disturbed. */
  lemma {:induction false} EveryReferenceFound(a: string, name: string, b: string)
    requires IsName(name)
    ensures Tokenize(a + (Text(name) + b)) == Tokenize(a) + [Ref(name)] + Tokenize(b)
    decreases |a|
  {
    hide RefAt, IsName, Text;
    var rest := Text(name) + b;
    TextShape(name);
    if a == "" {
      RefAtStart(name, b);
      assert a + rest == rest && rest[|name| + 3..] == b;
    } else {
      RefAtBefore(a, rest);
      var n := if RefAt(a).Some? then |RefAt(a).value| + 3 else 1;
      assert (a + rest)[n..] == a[n..] + rest;
      EveryReferenceFound(a[n..], name, b);
    }
  }

  lemma TextShape(name: string)
    ensures |Text(name)| == |name| + 3 && Text(name)[0] == '$'
  {
  }

  lemma AllName(s: string)
    requires forall k :: 0 <= k < |s| ==> NameChar(s[k])
    ensures NameLength(s) == |s|
  {
  }
}

/**
Resolution of one environment layer against a base environment and secrets
(internal/api/tier_env.go): recursive, memoised, and cut off at keys that are already being resolved.
*/
module EnvLayers {
  import opened References
  import opened Graphs

  type Env = map<string, string>

  datatype Context = Context(base: Env, own: Env, svc: Env, global: Env)

  predicate Secret(c: Context, r: string) { r in c.svc || r in c.global }

  function SecretValue(c: Context, r: string): string
    requires Secret(c, r)
  {
    if r in c.svc then c.svc[r] else c.global[r]
  }

  /** The value outside the layer, or the reference itself as text. */
  function Fallback(c: Context, r: string): string { if r in c.base then c.base[r] else Text(r) }

  // ---- The algorithm ----

  datatype Outcome = Outcome(text: string, memo: Env)

  /**
  Replaces the references in tokens, which belong to the value of key. busy are the keys being
  resolved, memo the values known so far.
  */
  function Resolve(c: Context, key: string, tokens: seq<Token>, busy: set<string>, memo: Env): Outcome
    requires busy <= c.own.Keys
    decreases c.own.Keys - busy, |tokens|
  {
    if tokens == [] then Outcome("", memo)
    else
      var done := Resolve(c, key, tokens[..|tokens| - 1], busy, memo);
      var last := ResolveToken(c, key, tokens[|tokens| - 1], busy, done.memo);
      Outcome(done.text + last.text, last.memo)
  }

  function ResolveToken(c: Context, key: string, token: Token, busy: set<string>, memo: Env): Outcome
    requires busy <= c.own.Keys
    decreases c.own.Keys - busy, 0
  {
    if token.Lit? then Outcome([token.ch], memo)
    else
      var r := token.name;
      if Secret(c, r) then Outcome(SecretValue(c, r), memo)
      else if r in memo then Outcome(memo[r], memo)
      else if r == key then Outcome(Fallback(c, r), memo)
      else if r in busy then Outcome(Text(r), memo)
      else if r !in c.own then Outcome(Fallback(c, r), memo)
      else
        var inner := Resolve(c, r, Tokenize(c.own[r]), busy + {r}, memo);
        Outcome(inner.text, inner.memo[r := inner.text])
  }

  /** One turn of the outer loop, which resolves a key even when its value is already known. */
  function Turn(c: Context, memo: Env, k: string): Env
    requires k in c.own
  {
    var o := Resolve(c, k, Tokenize(c.own[k]), {k}, memo);
    o.memo[k := o.text]
  }

  /** The outer loop, visiting the keys in this order. */
  function Run(c: Context, order: seq<string>): Env
    requires forall k :: k in order ==> k in c.own
  {
    if order == [] then map[] else Turn(c, Run(c, order[..|order| - 1]), order[|order| - 1])
  }

  /** Each key of the layer exactly once. */
  ghost predicate IsOrder(c: Context, order: seq<string>) {
    && (forall k :: k in order <==> k in c.own)
    && (forall i, j :: 0 <= i < j < |order| ==> order[i] != order[j])
  }

  // ---- Plain substitution ----

  /** What the references in tokens stand for, by recursion alone; above are the keys being expanded. */
  function Plain(c: Context, key: string, tokens: seq<Token>, above: set<string>): string
    requires above <= c.own.Keys
    decreases c.own.Keys - above, |tokens|
  {
    if tokens == [] then ""
    else Plain(c, key, tokens[..|tokens| - 1], above) + PlainToken(c, key, tokens[|tokens| - 1], above)
  }

  function PlainToken(c: Context, key: string, token: Token, above: set<string>): string
    requires above <= c.own.Keys
    decreases c.own.Keys - above, 0
  {
    if token.Lit? then [token.ch]
    else if Secret(c, token.name) then SecretValue(c, token.name)
    else if token.name == key || token.name !in c.own then Fallback(c, token.name)
    else if token.name in above then Text(token.name)
    else Plain(c, token.name, Tokenize(c.own[token.name]), above + {token.name})
  }

  /** The meaning of a key of the layer: a reference to itself means the value it had before. */
  function Meaning(c: Context, k: string): string
    requires k in c.own
  {
    Plain(c, k, Tokenize(c.own[k]), {k})
  }

  /** The other keys of the layer that the value of k refers to, unless a secret takes their place. */
  function Links(c: Context): Graph {
    map k | k in c.own :: set r | r in c.own && Ref(r) in Tokenize(c.own[k]) && !Secret(c, r) && r != k
  }

  predicate SelfReferring(c: Context, k: string) { k in c.own && Ref(k) in Tokenize(c.own[k]) && !Secret(c, k) }

  /** The layer above a base in which k already has its meaning. */
  function Above(c: Context, k: string): Context
    requires k in c.own
  {
    c.(base := c.base[k := Meaning(c, k)])
  }

  /** Resolving k a second time, on top of its first result, changes nothing. */
  predicate Repeatable(c: Context, k: string)
    requires k in c.own
  {
    Meaning(Above(c, k), k) == Meaning(c, k)
  }

  /** Every key that refers to itself and is referred to by another key is repeatable. */
  predicate Stable(c: Context) {
    forall j, k :: j in c.own && k in c.own && Edge(Links(c), j, k) && SelfReferring(c, k) ==> Repeatable(c, k)
  }

  /** None of the keys in above can be reached from key. */
  ghost predicate Clear(c: Context, key: string, above: set<string>) {
    above <= c.own.Keys && forall b :: b in above ==> !Reaches(Links(c), key, b)
  }

  lemma ClearBelow(c: Context, key: string, r: string, above: set<string>)
    requires Acyclic(Links(c)) && Edge(Links(c), key, r) && Clear(c, key, above)
    ensures r !in above && Clear(c, r, above + {r})
  {
    EdgeReaches(Links(c), key, r);
    forall b | b in above + {r} ensures !Reaches(Links(c), r, b) {
      if Reaches(Links(c), r, b) { ReachesTransitive(Links(c), key, r, b); }
    }
  }

  /** Without cycles the meaning of a key does not depend on where it is referred to. */
  lemma {:induction false} PlainAnywhere(c: Context, key: string, tokens: seq<Token>, a: set<string>, b: set<string>)
    requires Acyclic(Links(c)) && key in c.own && Clear(c, key, a) && Clear(c, key, b)
    requires forall t :: t in tokens ==> t in Tokenize(c.own[key])
    ensures Plain(c, key, tokens, a) == Plain(c, key, tokens, b)
    decreases c.own.Keys - a, |tokens|
  {
    if tokens != [] {
      var last := tokens[|tokens| - 1];
      PlainAnywhere(c, key, tokens[..|tokens| - 1], a, b);
      if last.Ref? && !Secret(c, last.name) && last.name != key && last.name in c.own {
        var r := last.name;
        assert Edge(Links(c), key, r);
        ClearBelow(c, key, r, a);
        ClearBelow(c, key, r, b);
        PlainAnywhere(c, r, Tokenize(c.own[r]), a + {r}, b + {r});
      }
    }
  }

  predicate MemoRight(c: Context, memo: Env) { forall k :: k in memo ==> k in c.own && memo[k] == Meaning(c, k) }

  /** What one resolution adds to the memo: meanings of keys that key refers to, directly or not. */
  ghost predicate Grown(c: Context, key: string, memo: Env, memo': Env) {
    && MemoRight(c, memo')
    && memo.Keys <= memo'.Keys
    && forall k :: k in memo' && k !in memo ==> Reaches(Links(c), key, k)
  }

  /** The state in which the value of key is being resolved in a layer without cycles. */
  ghost predicate Resolving(c: Context, key: string, busy: set<string>, memo: Env) {
    && Acyclic(Links(c)) && key in c.own && busy <= c.own.Keys && key in busy
    && (forall b :: b in busy ==> b == key || Reaches(Links(c), b, key))
    && MemoRight(c, memo)
  }

  lemma NotBusy(c: Context, key: string, r: string, busy: set<string>, memo: Env)
    requires Resolving(c, key, busy, memo) && Edge(Links(c), key, r)
    ensures r !in busy
    ensures Resolving(c, r, busy + {r}, memo)
  {
    var g := Links(c);
    assert !Reaches(g, r, r);
    forall b | b in busy ensures Reaches(g, b, r) { ReachesThenEdge(g, b, key, r); }
  }

  /** A reference met while key is resolved means the same on its own. */
  lemma MeaningBelow(c: Context, key: string, r: string)
    requires Acyclic(Links(c)) && Edge(Links(c), key, r)
    ensures key in c.own && r in c.own && r != key && PlainToken(c, key, Ref(r), {key}) == Meaning(c, r)
  {
    var g := Links(c);
    assert !Reaches(g, key, key) && !Reaches(g, r, r);
    ClearBelow(c, key, r, {key});
    PlainAnywhere(c, r, Tokenize(c.own[r]), {key} + {r}, {r});
  }

  /** What a key stands for depends on the base of no other key of the layer than those it reaches. */
  lemma {:induction false} BaseIrrelevant(c: Context, d: Context, x: string, key: string, tokens: seq<Token>,
      above: set<string>)
    requires x in c.own && d == c.(base := d.base) && forall y :: y != x ==> Fallback(d, y) == Fallback(c, y)
    requires key in c.own && key != x && !Reaches(Links(c), key, x) && above <= c.own.Keys
    requires forall t :: t in tokens ==> t in Tokenize(c.own[key])
    ensures Plain(d, key, tokens, above) == Plain(c, key, tokens, above)
    decreases c.own.Keys - above, |tokens|
  {
    if tokens != [] {
      var last := tokens[|tokens| - 1];
      BaseIrrelevant(c, d, x, key, tokens[..|tokens| - 1], above);
      if last.Ref? && !Secret(c, last.name) && last.name != key && last.name in c.own && last.name !in above {
        var r := last.name;
        assert Edge(Links(c), key, r);
        EdgeReaches(Links(c), key, r);
        if Reaches(Links(c), r, x) { ReachesTransitive(Links(c), key, r, x); }
        BaseIrrelevant(c, d, x, r, Tokenize(c.own[r]), above + {r});
      }
    }
  }

  /** On top of its own meaning, a key's other references mean what they did. */
  lemma MeaningAbove(c: Context, key: string, r: string)
    requires Acyclic(Links(c)) && Edge(Links(c), key, r)
    ensures key in c.own && PlainToken(Above(c, key), key, Ref(r), {key}) == PlainToken(c, key, Ref(r), {key})
  {
    var g := Links(c);
    assert !Reaches(g, key, key);
    EdgeReaches(g, key, r);
    if Reaches(g, r, key) { ReachesTransitive(g, key, r, key); }
    BaseIrrelevant(c, Above(c, key), key, r, Tokenize(c.own[r]), {key} + {r});
  }

  /** The layer in which the references of key are expanded: on top of its meaning when that is already known. */
  function Ground(c: Context, key: string, memo: Env): Context
    requires key in c.own
  {
    if key in memo then Above(c, key) else c
  }

  /** Resolving part of a value, in a layer without cycles, is plain substitution on the right ground. */
  lemma {:induction false} ResolveIsPlain(c: Context, key: string, tokens: seq<Token>, busy: set<string>, memo: Env)
    requires Resolving(c, key, busy, memo)
    requires forall t :: t in tokens ==> t in Tokenize(c.own[key])
    ensures var o := Resolve(c, key, tokens, busy, memo);
            o.text == Plain(Ground(c, key, memo), key, tokens, {key}) && Grown(c, key, memo, o.memo)
    decreases c.own.Keys - busy, |tokens|
  {
    if tokens != [] {
      var last := tokens[|tokens| - 1];
      ResolveIsPlain(c, key, tokens[..|tokens| - 1], busy, memo);
      var done := Resolve(c, key, tokens[..|tokens| - 1], busy, memo);
      if last.Ref? && !Secret(c, last.name) && last.name in c.own {
        if last.name == key { assert !Reaches(Links(c), key, key); } else {
          ResolveReference(c, key, last.name, busy, memo, done.memo);
          MeaningAbove(c, key, last.name);
        }
      }
    }
  }

  lemma {:induction false} ResolveReference(c: Context, key: string, r: string, busy: set<string>, memo: Env, now: Env)
    requires Resolving(c, key, busy, memo) && Grown(c, key, memo, now) && Edge(Links(c), key, r)
    ensures r !in busy && r in c.own && PlainToken(c, key, Ref(r), {key}) == Meaning(c, r)
    ensures r in now ==> now[r] == Meaning(c, r)
    ensures r !in now ==> var o := Resolve(c, r, Tokenize(c.own[r]), busy + {r}, now);
                          o.text == Meaning(c, r) && Grown(c, key, memo, o.memo[r := o.text])
    decreases c.own.Keys - busy, 0
  {
    MeaningBelow(c, key, r);
    StillResolving(c, key, busy, memo, now);
    NotBusy(c, key, r, busy, now);
    if r !in now {
      ResolveIsPlain(c, r, Tokenize(c.own[r]), busy + {r}, now);
      GrownBelow(c, key, r, memo, now, Resolve(c, r, Tokenize(c.own[r]), busy + {r}, now).memo);
    }
  }

  lemma StillResolving(c: Context, key: string, busy: set<string>, memo: Env, memo': Env)
    requires Resolving(c, key, busy, memo) && Grown(c, key, memo, memo')
    ensures Resolving(c, key, busy, memo')
  {
  }

  lemma GrownBelow(c: Context, key: string, r: string, memo: Env, now: Env, later: Env)
    requires Edge(Links(c), key, r) && Grown(c, key, memo, now) && Grown(c, r, now, later) && r in c.own
    ensures Grown(c, key, memo, later[r := Meaning(c, r)])
  {
    hide Meaning, Reaches, Acyclic, SelfReferring, Links;
    var g := Links(c);
    EdgeReaches(g, key, r);
    forall k | k in later && k !in now ensures Reaches(g, key, k) { ReachesTransitive(g, key, r, k); }
  }

  /** A turn resolves its key on the right ground and leaves every other known value as it was. */
  lemma TurnIsPlain(c: Context, memo: Env, k: string)
    requires Acyclic(Links(c)) && k in c.own && MemoRight(c, memo)
    ensures var t := Turn(c, memo, k);
            && k in t && t[k] == Meaning(Ground(c, k, memo), k) && memo.Keys <= t.Keys
            && (forall x :: x in t && x != k ==> x in c.own && t[x] == Meaning(c, x))
            && (forall x :: x in t && x !in memo && x != k ==> Reaches(Links(c), k, x))
  {
    ResolveIsPlain(c, k, Tokenize(c.own[k]), {k}, memo);
  }

  lemma SomeoneRefers(c: Context, k: string, x: string) returns (j: string)
    requires Reaches(Links(c), k, x)
    ensures j in c.own && x in c.own && Edge(Links(c), j, x)
  {
    var p :| Leads(Links(c), p, k, x);
    j := p[|p| - 2];
    assert Edge(Links(c), p[|p| - 2], p[|p| - 1]);
  }

  /** A key that refers to no value of its own is repeatable. */
  lemma {:induction false} NoSelfReference(c: Context, k: string, tokens: seq<Token>)
    requires Acyclic(Links(c)) && k in c.own && !SelfReferring(c, k)
    requires forall t :: t in tokens ==> t in Tokenize(c.own[k])
    ensures Plain(Above(c, k), k, tokens, {k}) == Plain(c, k, tokens, {k})
    decreases |tokens|
  {
    if tokens != [] {
      var last := tokens[|tokens| - 1];
      NoSelfReference(c, k, tokens[..|tokens| - 1]);
      if last.Ref? && !Secret(c, last.name) && last.name in c.own { MeaningAbove(c, k, last.name); }
    }
  }

  /**
  In a stable layer every value known after some turns is right, and keys known before their turn are
  referred to.
  */
  lemma {:induction false} RunIsPlain(c: Context, order: seq<string>)
    requires Acyclic(Links(c)) && Stable(c) && (forall k :: k in order ==> k in c.own)
    requires forall i, j :: 0 <= i < j < |order| ==> order[i] != order[j]
    ensures MemoRight(c, Run(c, order))
    ensures forall k :: k in order ==> k in Run(c, order)
    ensures forall k :: k in Run(c, order) && k !in order ==> Repeatable(c, k)
  {
    hide Acyclic, Meaning, Turn;
    if order != [] {
      var n := |order| - 1;
      var before, k := Run(c, order[..n]), order[n];
      RunIsPlain(c, order[..n]);
      assert order == order[..n] + [k];
      TurnIsPlain(c, before, k);
      forall x | x in Run(c, order) && x !in order ensures Repeatable(c, x) {
        if x !in before {
          var j := SomeoneRefers(c, k, x);
          if !SelfReferring(c, x) { RepeatableWithout(c, x); }
        }
      }
    }
  }

  lemma RepeatableWithout(c: Context, k: string)
    requires Acyclic(Links(c)) && k in c.own && !SelfReferring(c, k)
    ensures Repeatable(c, k)
  {
    NoSelfReference(c, k, Tokenize(c.own[k]));
  }

  /**
  For a stable layer without cycles the memoised resolution is plain substitution, whatever order the
  keys are visited in.
  */
  lemma MemoisedIsPlain(c: Context, order: seq<string>)
    requires Acyclic(Links(c)) && Stable(c) && IsOrder(c, order)
    ensures Run(c, order) == map k | k in c.own :: Meaning(c, k)
  {
    RunIsPlain(c, order);
  }

  // ---- Order independence ----

  ghost predicate OrderIndependent(c: Context) {
    forall a, b :: IsOrder(c, a) && IsOrder(c, b) ==> Run(c, a) == Run(c, b)
  }

  /** The rest of the keys in some order. */
  lemma {:induction false} Listing(keys: set<string>) returns (list: seq<string>)
    ensures forall k :: k in list <==> k in keys
    ensures forall i, j :: 0 <= i < j < |list| ==> list[i] != list[j]
    decreases keys
  {
    list := [];
    if keys != {} {
      var k :| k in keys;
      var rest := Listing(keys - {k});
      list := [k] + rest;
    }
  }

  /** Known values survive a resolution. */
  lemma {:induction false} KnownKept(c: Context, key: string, tokens: seq<Token>, busy: set<string>, memo: Env,
      x: string)
    requires busy <= c.own.Keys && x in memo
    ensures x in Resolve(c, key, tokens, busy, memo).memo && Resolve(c, key, tokens, busy, memo).memo[x] == memo[x]
    decreases c.own.Keys - busy, |tokens|
  {
    if tokens != [] {
      var init, last := tokens[..|tokens| - 1], tokens[|tokens| - 1];
      KnownKept(c, key, init, busy, memo, x);
      if last.Ref? && last.name !in busy && last.name in c.own {
        KnownKept(c, last.name, Tokenize(c.own[last.name]), busy + {last.name},
            Resolve(c, key, init, busy, memo).memo, x);
      }
    }
  }

  /** A key's value is final after its own turn. */
  lemma {:induction false} FinalAfterTurn(c: Context, done: seq<string>, rest: seq<string>, k: string)
    requires (forall x :: x in done + rest ==> x in c.own) && k !in rest && k in Run(c, done)
    ensures k in Run(c, done + rest) && Run(c, done + rest)[k] == Run(c, done)[k]
    decreases |rest|
  {
    if rest == [] {
      assert done + rest == done;
    } else {
      var n := |rest| - 1;
      var order := done + rest;
      assert order[..|order| - 1] == done + rest[..n] && order[|order| - 1] == rest[n];
      FinalAfterTurn(c, done, rest[..n], k);
      KnownKept(c, rest[n], Tokenize(c.own[rest[n]]), {rest[n]}, Run(c, done + rest[..n]), k);
    }
  }

  lemma FirstTurns(c: Context, j: string, k: string)
    requires Acyclic(Links(c)) && j in c.own && k in c.own && Edge(Links(c), j, k)
    ensures k in Run(c, [k]) && Run(c, [k])[k] == Meaning(c, k)
    ensures j != k && k in Run(c, [j, k]) && Run(c, [j, k])[k] == Meaning(Above(c, k), k)
  {
    hide Turn, Meaning;
    assert [k][..0] == [] && [j][..0] == [] && [j, k][..1] == [j];
    assert Run(c, []) == map[];
    TurnIsPlain(c, map[], k);
    TurnIsPlain(c, map[], j);
    assert Run(c, [j]) == Turn(c, map[], j);
    TurnReaches(c, j, k);
    TurnIsPlain(c, Run(c, [j]), k);
  }

  /** A first turn leaves every key its value refers to known. */
  lemma TurnReaches(c: Context, j: string, k: string)
    requires Acyclic(Links(c)) && j in c.own && Edge(Links(c), j, k)
    ensures k in Turn(c, map[], j)
  {
    ReferencesKnown(c, j, Tokenize(c.own[j]), k);
  }

  lemma {:induction false} ReferencesKnown(c: Context, j: string, tokens: seq<Token>, k: string)
    requires Acyclic(Links(c)) && j in c.own && k in c.own && k != j && !Secret(c, k) && Ref(k) in tokens
    requires forall t :: t in tokens ==> t in Tokenize(c.own[j])
    ensures k in Resolve(c, j, tokens, {j}, map[]).memo
    decreases |tokens|
  {
    var init, last := tokens[..|tokens| - 1], tokens[|tokens| - 1];
    assert tokens == init + [last];
    if last != Ref(k) {
      ReferencesKnown(c, j, init, k);
      var memo := Resolve(c, j, init, {j}, map[]).memo;
      if last.Ref? && last.name != j && last.name in c.own {
        KnownKept(c, last.name, Tokenize(c.own[last.name]), {j} + {last.name}, memo, k);
      }
    }
  }

  /** An order that starts with the given keys. */
  lemma StartingWith(c: Context, first: seq<string>) returns (rest: seq<string>)
    requires (forall k :: k in first ==> k in c.own) && forall i, j :: 0 <= i < j < |first| ==> first[i] != first[j]
    ensures IsOrder(c, first + rest) && forall k :: k in first ==> k !in rest
  {
    rest := Listing(c.own.Keys - set k | k in first);
    var order := first + rest;
    forall i, j | 0 <= i < j < |order| ensures order[i] != order[j] {
      if i < |first| <= j { assert order[i] in first && order[j] in rest; }
    }
  }

  /** One order resolves k first, another after j: they agree on k only if k is repeatable. */
  lemma RepeatableIfIndependent(c: Context, j: string, k: string)
    requires Acyclic(Links(c)) && OrderIndependent(c) && j in c.own && k in c.own && Edge(Links(c), j, k)
    ensures Repeatable(c, k)
  {
    hide Acyclic, Meaning, Run, IsOrder, Links;
    FirstTurns(c, j, k);
    var early := StartingWith(c, [k]);
    var late := StartingWith(c, [j, k]);
    OrderKeys(c, [k] + early);
    OrderKeys(c, [j, k] + late);
    FinalAfterTurn(c, [k], early, k);
    FinalAfterTurn(c, [j, k], late, k);
    assert Run(c, [k] + early) == Run(c, [j, k] + late);
  }

  lemma OrderKeys(c: Context, order: seq<string>)
    requires IsOrder(c, order)
    ensures forall k :: k in order ==> k in c.own
  {
  }

  /**
  Exactly when the order does not matter. In a layer without cycles every order of visiting the keys
  gives the same result if and only if each key that refers to itself and is referred to by another key
  comes out the same when it is resolved on top of its own result.
  */
  lemma OrderIndependentIffStable(c: Context)
    requires Acyclic(Links(c))
    ensures OrderIndependent(c) <==> Stable(c)
  {
    hide Acyclic, Meaning, Run;
    if Stable(c) {
      forall a, b | IsOrder(c, a) && IsOrder(c, b) ensures Run(c, a) == Run(c, b) {
        MemoisedIsPlain(c, a);
        MemoisedIsPlain(c, b);
      }
    }
    if OrderIndependent(c) {
      forall j, k | j in c.own && k in c.own && Edge(Links(c), j, k) && SelfReferring(c, k) ensures Repeatable(c, k) {
        RepeatableIfIndependent(c, j, k);
      }
    }
  }

  /**
  A key that refers to itself while another key refers to it is expanded once or twice, depending on
  the order: with A = "b" below and the layer A = "${A}x", B = "${A}", A becomes "bx" or "bxx".
  */
  lemma SelfReferenceDependsOnOrder()
    ensures var c := Context(map["A" := "b"], map["A" := "${A}x", "B" := "${A}"], map[], map[]);
            && IsOrder(c, ["A", "B"]) && Run(c, ["A", "B"]) == map["A" := "bx", "B" := "bx"]
            && IsOrder(c, ["B", "A"]) && Run(c, ["B", "A"]) == map["A" := "bxx", "B" := "bx"]
  {
    var c := Context(map["A" := "b"], map["A" := "${A}x", "B" := "${A}"], map[], map[]);
    hide Run;
    ExampleTokens();
    assert c.own.Keys == {"A", "B"} && Example(c);
    assert IsOrder(c, ["A", "B"]) && IsOrder(c, ["B", "A"]);
    ResolveOrderAB(c);
    ResolveOrderBA(c);
  }

  lemma ExampleTokens()
    ensures Tokenize("${A}x") == [Ref("A"), Lit('x')] && Tokenize("${A}") == [Ref("A")]
  {
    EveryReferenceFound("", "A", "x");
    EveryReferenceFound("", "A", "");
    assert "" + (Text("A") + "x") == "${A}x" && "" + (Text("A") + "") == "${A}";
  }

  lemma ResolveOrderAB(c: Context)
    requires Example(c)
    ensures Run(c, ["A", "B"]) == map["A" := "bx", "B" := "bx"]
  {
    hide Resolve, Tokenize;
    assert "b" + "x" == "bx";
    ResolveA(c, {"A"}, map[]);
    ResolveB(c, map["A" := "bx"]);
    assert ["A"][..0] == [] && Run(c, []) == map[];
    assert Run(c, ["A"]) == map["A" := "bx"];
    assert ["A", "B"][..1] == ["A"];
  }

  lemma ResolveOrderBA(c: Context)
    requires Example(c)
    ensures Run(c, ["B", "A"]) == map["A" := "bxx", "B" := "bx"]
  {
    hide Resolve, Tokenize;
    assert "b" + "x" == "bx" && "bx" + "x" == "bxx";
    ResolveB(c, map[]);
    ResolveA(c, {"A"}, map["A" := "bx", "B" := "bx"]);
    assert ["B"][..0] == [] && Run(c, []) == map[];
    assert Run(c, ["B"]) == map["A" := "bx", "B" := "bx"];
    assert ["B", "A"][..1] == ["B"];
  }

  predicate Example(c: Context) {
    && c.base == map["A" := "b"] && c.svc == map[] && c.global == map[] && c.own.Keys == {"A", "B"}
    && Tokenize(c.own["A"]) == [Ref("A"), Lit('x')] && Tokenize(c.own["B"]) == [Ref("A")]
  }

  lemma ResolveOne(c: Context, key: string, token: Token, busy: set<string>, memo: Env)
    requires busy <= c.own.Keys
    ensures Resolve(c, key, [token], busy, memo) == ResolveToken(c, key, token, busy, memo)
  {
    hide ResolveToken;
    assert [token][..0] == [];
    assert Resolve(c, key, [], busy, memo) == Outcome("", memo);
  }

  lemma ResolveA(c: Context, busy: set<string>, memo: Env)
    requires Example(c) && busy <= c.own.Keys
    ensures Resolve(c, "A", [Ref("A"), Lit('x')], busy, memo) ==
            Outcome((if "A" in memo then memo["A"] else "b") + "x", memo)
  {
    hide Tokenize;
    assert "b" + "x" == "bx";
    var tokens := [Ref("A"), Lit('x')];
    ResolveOne(c, "A", Ref("A"), busy, memo);
    assert tokens[..1] == [Ref("A")];
  }

  lemma ResolveB(c: Context, memo: Env)
    requires Example(c)
    ensures Resolve(c, "B", [Ref("A")], {"B"}, memo) ==
            if "A" in memo then Outcome(memo["A"], memo) else Outcome("bx", memo["A" := "bx"])
  {
    hide Tokenize;
    assert "b" + "x" == "bx";
    ResolveOne(c, "B", Ref("A"), {"B"}, memo);
    if "A" !in memo {
      assert {"B"} + {"A"} == {"A", "B"};
      ResolveA(c, {"A", "B"}, memo);
    }
  }

  /** No cycles, and nothing that depends on the order. */
  ghost predicate Plainly(c: Context) { Acyclic(Links(c)) && Stable(c) }

  lemma PlainLayer(c: Context, order: seq<string>)
    requires Plainly(c) && IsOrder(c, order)
    ensures Run(c, order) == map k | k in c.own :: Meaning(c, k)
  {
    MemoisedIsPlain(c, order);
  }

  // ---- Layers ----

  predicate Protected(k: string) { "ADMIRAL_" <= k }

  /** filterProtectedVars */
  function Unprotected(m: Env): Env { map k | k in m && !Protected(k) :: m[k] }

  /** mergeEnvironmentMaps: later maps win. */
  function Merge(a: Env, b: Env): Env { a + b }

  lemma {:induction false} ResolveKeys(c: Context, key: string, tokens: seq<Token>, busy: set<string>, memo: Env)
    requires busy <= c.own.Keys && memo.Keys <= c.own.Keys
    ensures Resolve(c, key, tokens, busy, memo).memo.Keys <= c.own.Keys
    decreases c.own.Keys - busy, |tokens|
  {
    if tokens != [] {
      var init := tokens[..|tokens| - 1];
      ResolveKeys(c, key, init, busy, memo);
      var r := tokens[|tokens| - 1];
      assert Resolve(c, key, tokens, busy, memo).memo == ResolveToken(c, key, r, busy,
          Resolve(c, key, init, busy, memo).memo).memo;
      if r.Ref? && r.name !in busy && r.name in c.own {
        ResolveKeys(c, r.name, Tokenize(c.own[r.name]), busy + {r.name}, Resolve(c, key, init, busy, memo).memo);
      }
    }
  }

  /** Whatever the references, a layer defines exactly its own keys. */
  lemma {:induction false} RunKeys(c: Context, order: seq<string>)
    requires forall k :: k in order ==> k in c.own
    ensures Run(c, order).Keys <= c.own.Keys
    ensures IsOrder(c, order) ==> Run(c, order).Keys == c.own.Keys
  {
    RunKeysWithin(c, order);
    if IsOrder(c, order) {
      forall k | k in c.own ensures k in Run(c, order) { RunDefines(c, order, k); }
    }
  }

  lemma {:induction false} RunKeysWithin(c: Context, order: seq<string>)
    requires forall k :: k in order ==> k in c.own
    ensures Run(c, order).Keys <= c.own.Keys
  {
    if order != [] {
      var k := order[|order| - 1];
      RunKeysWithin(c, order[..|order| - 1]);
      ResolveKeys(c, k, Tokenize(c.own[k]), {k}, Run(c, order[..|order| - 1]));
    }
  }

  lemma {:induction false} RunDefines(c: Context, order: seq<string>, k: string)
    requires (forall x :: x in order ==> x in c.own) && k in order
    ensures k in Run(c, order)
  {
    var n := |order| - 1;
    assert order == order[..n] + [order[n]];
    if k != order[n] {
      RunDefines(c, order[..n], k);
      KnownKept(c, order[n], Tokenize(c.own[order[n]]), {order[n]}, Run(c, order[..n]), k);
    }
  }

  class Resolver {
    const c: Context
    var resolvedLayer: Env
    var resolving: set<string>

    constructor (c: Context)
      ensures this.c == c && resolvedLayer == map[] && resolving == {}
    {
      this.c, resolvedLayer, resolving := c, map[], {};
    }

    /** resolveValue, which terminates on every layer: each nested call resolves one more key of it. */
    method ResolveValue(current: string, value: string) returns (text: string)
      requires resolving <= c.own.Keys
      modifies this
      ensures resolving == old(resolving)
      ensures Outcome(text, resolvedLayer) == Resolve(c, current, Tokenize(value), old(resolving), old(resolvedLayer))
      decreases c.own.Keys - resolving, 1
    {
      hide ResolveToken;
      var tokens := Tokenize(value);
      text := "";
      for i := 0 to |tokens|
        invariant resolving == old(resolving)
        invariant Outcome(text, resolvedLayer) == Resolve(c, current, tokens[..i], old(resolving), old(resolvedLayer))
      {
        assert tokens[..i + 1][..i] == tokens[..i];
        var piece := ReplaceToken(current, tokens[i]);
        text := text + piece;
      }
      assert tokens[..|tokens|] == tokens;
    }

    /** The replacement of one match. */
    method ReplaceToken(current: string, token: Token) returns (text: string)
      requires resolving <= c.own.Keys
      modifies this
      ensures resolving == old(resolving)
      ensures Outcome(text, resolvedLayer) == ResolveToken(c, current, token, old(resolving), old(resolvedLayer))
      decreases c.own.Keys - resolving, 0
    {
      hide Resolve;
      if token.Lit? { return [token.ch]; }
      var r := token.name;
      if Secret(c, r) { return SecretValue(c, r); }
      if r in resolvedLayer { return resolvedLayer[r]; }
      if r == current { return Fallback(c, r); }
      if r in resolving { return Text(r); }
      if r !in c.own { return Fallback(c, r); }
      resolving := resolving + {r};
      text := ResolveValue(r, c.own[r]);
      resolving := resolving - {r};
      resolvedLayer := resolvedLayer[r := text];
    }
  }

  /** resolveEnvLayer; the order in which keys are visited is arbitrary. */
  method ResolveLayer(c: Context) returns (env: Env)
    ensures exists order :: IsOrder(c, order) && env == Merge(c.base, Run(c, order))
  {
    ghost var order: seq<string> := [];
    if c.own == map[] {
      assert IsOrder(c, order);
      return c.base;
    }
    var r := new Resolver(c);
    var rest := c.own.Keys;
    while rest != {}
      invariant r.c == c && r.resolving == {}
      invariant rest <= c.own.Keys && forall k :: k in order <==> k in c.own && k !in rest
      invariant forall i, j :: 0 <= i < j < |order| ==> order[i] != order[j]
      invariant r.resolvedLayer == Run(c, order)
      decreases rest
    {
      var k :| k in rest;
      rest := rest - {k};
      r.resolving := {k};
      var v := r.ResolveValue(k, c.own[k]);
      r.resolving := {};
      r.resolvedLayer := r.resolvedLayer[k := v];
      assert (order + [k])[..|order|] == order;
      order := order + [k];
    }
    env := Merge(c.base, r.resolvedLayer);
    assert IsOrder(c, order);
  }

  /**
  The environment of a service: system variables, then the app's, the service's and the tier's. No
  layer adds or changes an ADMIRAL_ variable, whatever it refers to; every other name declared by
  some layer is present, and the tier's own values win.
  */
  method BuildEnvironment(system: Env, app: Env, service: Env, tier: Env, svc: Env, global: Env)
      returns (env: Env, ghost below: Env)
    ensures forall k :: Protected(k) ==> (k in env <==> k in system) && (k in system ==> env[k] == system[k])
    ensures env.Keys == system.Keys + Unprotected(app).Keys + Unprotected(service).Keys + Unprotected(tier).Keys
    ensures below.Keys == system.Keys + Unprotected(app).Keys + Unprotected(service).Keys
    ensures forall k :: k in below && k !in Unprotected(tier) ==> env[k] == below[k]
    ensures var c := Context(below, Unprotected(tier), svc, global);
            Plainly(c) ==> forall k :: k in Unprotected(tier) ==> env[k] == Meaning(c, k)
  {
    hide Plainly, Run, Meaning;
    var a := AddLayer(system, app, svc, global);
    var b := AddLayer(a, service, svc, global);
    below := b;
    env := AddLayer(b, tier, svc, global);
  }

  /**
  One layer: nothing protected changes, nothing else is lost, and an order-independent layer is plainly
  substituted.
  */
  method AddLayer(base: Env, layer: Env, svc: Env, global: Env) returns (env: Env)
    ensures env.Keys == base.Keys + Unprotected(layer).Keys
    ensures forall k :: k in base && (Protected(k) || k !in layer) ==> env[k] == base[k]
    ensures var c := Context(base, Unprotected(layer), svc, global);
            Plainly(c) ==> forall k :: k in Unprotected(layer) ==> env[k] == Meaning(c, k)
  {
    hide Plainly, Run, Meaning;
    var c := Context(base, Unprotected(layer), svc, global);
    env := ResolveLayer(c);
    ghost var order :| IsOrder(c, order) && env == Merge(c.base, Run(c, order));
    RunKeys(c, order);
    if Plainly(c) { PlainLayer(c, order); }
  }
}
