/** Routing-key patterns with captures (receiver/subscription.go).
    A string is a sequence of bytes here: one `char` stands for one byte. */
module RoutingKeys {
  import opened Options

  // ---------------------------------------------------------------- words

  // strings.Split(s, ".")
  function Split(s: string): (words: seq<string>)
    ensures |words| >= 1
  {
    if s == "" then [""]
    else
      var rest := Split(s[1..]);
      if s[0] == '.' then [""] + rest else [[s[0]] + rest[0]] + rest[1..]
  }

  // strings.Join(words, ".")
  function JoinDot(words: seq<string>): string {
    if words == [] then ""
    else if |words| == 1 then words[0]
    else words[0] + "." + JoinDot(words[1..])
  }

  // splitDot: the empty string has no words rather than one empty word.
  function SplitDot(s: string): seq<string> {
    if s == "" then [] else Split(s)
  }

  predicate DotFree(words: seq<string>) {
    forall i :: 0 <= i < |words| ==> '.' !in words[i]
  }

  lemma {:induction false} SplitIsDotFree(s: string)
    ensures DotFree(Split(s))
  {
    if s != "" {
      SplitIsDotFree(s[1..]);
    }
  }

  lemma {:induction false} SplitThenJoin(s: string)
    ensures JoinDot(Split(s)) == s
  {
    if s != "" {
      var rest := Split(s[1..]);
      SplitThenJoin(s[1..]);
      if s[0] == '.' {
        assert ([""] + rest)[1..] == rest;
        assert s == "." + s[1..];
      } else {
        var first := [s[0]] + rest[0];
        assert ([first] + rest[1..])[1..] == rest[1..];
        if |rest| > 1 {
          assert JoinDot([first] + rest[1..]) == first + "." + JoinDot(rest[1..]);
        }
        assert s == [s[0]] + s[1..];
      }
    }
  }

  // Splitting a dot-free word followed by a dot peels exactly that word off.
  lemma {:induction false} SplitPeels(word: string, tail: string)
    requires '.' !in word
    ensures Split(word) == [word]
    ensures Split(word + "." + tail) == [word] + Split(tail)
  {
    var whole := word + "." + tail;
    if word == "" {
      assert whole[1..] == tail;
    } else {
      SplitPeels(word[1..], tail);
      assert whole[1..] == word[1..] + "." + tail;
      assert [word[0]] + word[1..] == word;
    }
  }

  lemma {:induction false} JoinThenSplit(words: seq<string>)
    requires words != [] && DotFree(words)
    ensures Split(JoinDot(words)) == words
  {
    SplitPeels(words[0], JoinDot(words[1..]));
    if |words| > 1 {
      JoinThenSplit(words[1..]);
    }
  }

  // The two directions of the word round trip: joining undoes splitting always,
  // and splitting undoes joining exactly on the dot-free word lists other than
  // the single empty word.
  lemma WordRoundTrip(s: string, words: seq<string>)
    ensures JoinDot(SplitDot(s)) == s
    ensures SplitDot(JoinDot(words)) == words <==> DotFree(words) && words != [""]
  {
    SplitThenJoin(s);
    SplitIsDotFree(JoinDot(words));
    if DotFree(words) && words != [] && words != [""] {
      JoinThenSplit(words);
      assert Split("") == [""];
    }
  }

  // ------------------------------------------- the declarative relation

  // Word patterns of a topic exchange, section 3.1.3.3 of AMQP 0-9-1: "*" stands
  // for one word, "#" for zero or more; either may be followed by a capture name.
  predicate IsHash(tok: string) { |tok| > 0 && tok[0] == '#' }

  predicate IsStar(tok: string) { |tok| > 0 && tok[0] == '*' }

  predicate Named(tok: string) { (IsHash(tok) || IsStar(tok)) && |tok| > 1 }

  predicate Names(tok: string, name: string) { Named(tok) && tok[1..] == name }

  predicate TokenFits(tok: string, segment: seq<string>) {
    if IsHash(tok) then true
    else if IsStar(tok) then |segment| == 1
    else segment == [tok]
  }

  function Concat(segments: seq<seq<string>>): seq<string> {
    if segments == [] then [] else segments[0] + Concat(segments[1..])
  }

  // `segments` cuts the key into consecutive pieces, one per token, each of which fits.
  ghost predicate Cut(pattern: seq<string>, key: seq<string>, segments: seq<seq<string>>) {
    && |segments| == |pattern|
    && Concat(segments) == key
    && forall i :: 0 <= i < |pattern| ==> TokenFits(pattern[i], segments[i])
  }

  ghost predicate Matches(pattern: seq<string>, key: seq<string>) {
    exists segments :: Cut(pattern, key, segments)
  }

  // Lexicographic order on piece lengths, leftmost first.
  ghost predicate NoLonger(a: seq<seq<string>>, b: seq<seq<string>>)
    requires |a| == |b|
  {
    a == [] || |a[0]| < |b[0]| || (|a[0]| == |b[0]| && NoLonger(a[1..], b[1..]))
  }

  ghost predicate Least(pattern: seq<string>, key: seq<string>, segments: seq<seq<string>>) {
    && Cut(pattern, key, segments)
    && forall other :: Cut(pattern, key, other) ==> NoLonger(segments, other)
  }

  ghost predicate FirstUse(pattern: seq<string>, i: int, name: string) {
    && 0 <= i < |pattern|
    && Names(pattern[i], name)
    && forall j :: 0 <= j < i ==> !Names(pattern[j], name)
  }

  // `fields` holds exactly the named captures, the leftmost token deciding a repeated name.
  ghost predicate CapturedBy(pattern: seq<string>, segments: seq<seq<string>>, fields: map<string, string>)
    requires |segments| == |pattern|
  {
    && (forall name :: name in fields ==> exists i :: FirstUse(pattern, i, name))
    && (forall i, name :: FirstUse(pattern, i, name) ==> name in fields && fields[name] == JoinDot(segments[i]))
  }

  // What a match must answer: captured along the least cut.
  ghost predicate Captures(pattern: seq<string>, key: seq<string>, fields: map<string, string>) {
    exists segments :: Least(pattern, key, segments) && CapturedBy(pattern, segments, fields)
  }

  // --------------------------------------------------------- the matcher

  lemma CutCons(tok: string, rest: seq<string>, key: seq<string>, segment: seq<string>, tail: seq<seq<string>>)
    ensures Cut([tok] + rest, key, [segment] + tail) <==>
            segment <= key && TokenFits(tok, segment) && Cut(rest, key[|segment|..], tail)
  {
    var pattern, segments := [tok] + rest, [segment] + tail;
    assert segments[1..] == tail;
    if Cut(pattern, key, segments) {
      assert TokenFits(pattern[0], segments[0]);
      assert key[|segment|..] == Concat(tail);
      forall i | 0 <= i < |rest| ensures TokenFits(rest[i], tail[i]) {
        assert TokenFits(pattern[i + 1], segments[i + 1]);
      }
    }
  }

  lemma CutUncons(pattern: seq<string>, key: seq<string>, segments: seq<seq<string>>)
    requires pattern != [] && Cut(pattern, key, segments)
    ensures segments[0] <= key && TokenFits(pattern[0], segments[0])
    ensures Cut(pattern[1..], key[|segments[0]|..], segments[1..])
  {
    assert pattern == [pattern[0]] + pattern[1..];
    assert segments == [segments[0]] + segments[1..];
    CutCons(pattern[0], pattern[1..], key, segments[0], segments[1..]);
  }

  // The least cut of the rest extends to the least cut of the whole when no
  // shorter first piece leaves a key the rest matches.
  lemma LeastCons(pattern: seq<string>, key: seq<string>, i: nat, tail: seq<seq<string>>)
    requires pattern != [] && i <= |key| && TokenFits(pattern[0], key[..i])
    requires forall j :: 0 <= j < i && TokenFits(pattern[0], key[..j]) ==> !Matches(pattern[1..], key[j..])
    requires Least(pattern[1..], key[i..], tail)
    ensures Least(pattern, key, [key[..i]] + tail)
  {
    var segments := [key[..i]] + tail;
    assert pattern == [pattern[0]] + pattern[1..];
    CutCons(pattern[0], pattern[1..], key, key[..i], tail);
    forall other | Cut(pattern, key, other) ensures NoLonger(segments, other) {
      CutUncons(pattern, key, other);
      assert other[0] == key[..|other[0]|];
      assert Matches(pattern[1..], key[|other[0]|..]);
      assert segments[1..] == tail;
    }
  }

  lemma CapturedCons(pattern: seq<string>, segments: seq<seq<string>>,
                      rest: map<string, string>, fields: map<string, string>)
    requires pattern != [] && |segments| == |pattern|
    requires CapturedBy(pattern[1..], segments[1..], rest)
    requires fields == if Named(pattern[0]) then rest[pattern[0][1..] := JoinDot(segments[0])] else rest
    ensures CapturedBy(pattern, segments, fields)
  {
    var tok, more := pattern[0], pattern[1..];
    forall i, name | FirstUse(pattern, i, name)
      ensures name in fields && fields[name] == JoinDot(segments[i])
    {
      if i > 0 {
        assert !Names(pattern[0], name);
        assert FirstUse(more, i - 1, name) by {
          forall j | 0 <= j < i - 1 ensures !Names(more[j], name) { assert more[j] == pattern[j + 1]; }
        }
      }
    }
    forall name | name in fields ensures exists i :: FirstUse(pattern, i, name) {
      if Names(tok, name) {
        assert FirstUse(pattern, 0, name);
      } else {
        var i :| FirstUse(more, i, name);
        assert FirstUse(pattern, i + 1, name) by {
          forall j | 0 <= j < i + 1 ensures !Names(pattern[j], name) {
            if j > 0 { assert more[j - 1] == pattern[j]; }
          }
        }
      }
    }
  }

  // matchTokens. A nil map is `map[]`: the code never builds a map it does not put a capture in.
  method MatchTokens(pattern: seq<string>, key: seq<string>) returns (fields: map<string, string>, ok: bool)
    ensures ok <==> Matches(pattern, key)
    ensures ok ==> Captures(pattern, key, fields)
    ensures !ok ==> fields == map[]
    decreases |pattern|
  {
    if |pattern| == 0 {
      if |key| == 0 {
        assert Least(pattern, key, []) && CapturedBy(pattern, [], map[]);
        return map[], true;
      }
      return map[], false;
    }
    var tok, rest := pattern[0], pattern[1..];
    if tok == "#" || (|tok| > 1 && tok[0] == '#') {
      for i := 0 to |key| + 1
        invariant forall j :: 0 <= j < i ==> !Matches(rest, key[j..])
      {
        fields, ok := MatchTokens(rest, key[i..]);
        if ok {
          ghost var sub := fields;
          if |tok| > 1 {
            fields := fields[tok[1..] := JoinDot(key[..i])];
          }
          ghost var tail :| Least(rest, key[i..], tail) && CapturedBy(rest, tail, sub);
          Extend(pattern, key, i, tail, sub, fields);
          return;
        }
      }
      if segments :| Cut(pattern, key, segments) {
        CutUncons(pattern, key, segments);
        assert Matches(rest, key[|segments[0]|..]);
        assert false;
      }
      return map[], false;
    }
    if |key| == 0 {
      NoFirstWord(pattern, key);
      return map[], false;
    }
    if tok == "*" || (|tok| > 1 && tok[0] == '*') {
      fields, ok := MatchTokens(rest, key[1..]);
      OneWord(pattern, key);
      if !ok {
        return map[], false;
      }
      ghost var sub := fields;
      if |tok| > 1 {
        fields := fields[tok[1..] := key[0]];
      }
      ghost var tail :| Least(rest, key[1..], tail) && CapturedBy(rest, tail, sub);
      assert JoinDot(key[..1]) == key[0];
      Extend(pattern, key, 1, tail, sub, fields);
      return;
    }
    OneWord(pattern, key);
    if tok == key[0] {
      fields, ok := MatchTokens(rest, key[1..]);
      if ok {
        ghost var tail :| Least(rest, key[1..], tail) && CapturedBy(rest, tail, fields);
        Extend(pattern, key, 1, tail, fields, fields);
      }
      return;
    }
    return map[], false;
  }

  lemma Extend(pattern: seq<string>, key: seq<string>, i: nat, tail: seq<seq<string>>,
               sub: map<string, string>, fields: map<string, string>)
    requires pattern != [] && i <= |key| && TokenFits(pattern[0], key[..i])
    requires forall j :: 0 <= j < i && TokenFits(pattern[0], key[..j]) ==> !Matches(pattern[1..], key[j..])
    requires Least(pattern[1..], key[i..], tail) && CapturedBy(pattern[1..], tail, sub)
    requires fields == if Named(pattern[0]) then sub[pattern[0][1..] := JoinDot(key[..i])] else sub
    ensures Matches(pattern, key) && Captures(pattern, key, fields)
  {
    var segments := [key[..i]] + tail;
    LeastCons(pattern, key, i, tail);
    assert segments[1..] == tail && segments[0] == key[..i];
    CapturedCons(pattern, segments, sub, fields);
    assert Cut(pattern, key, segments);
  }

  lemma NoFirstWord(pattern: seq<string>, key: seq<string>)
    requires pattern != [] && !IsHash(pattern[0]) && key == []
    ensures !Matches(pattern, key)
  {
    if segments :| Cut(pattern, key, segments) {
      CutUncons(pattern, key, segments);
    }
  }

  // A token that is not "#" takes exactly the first word.
  lemma OneWord(pattern: seq<string>, key: seq<string>)
    requires pattern != [] && !IsHash(pattern[0]) && key != []
    ensures Matches(pattern, key) <==> TokenFits(pattern[0], key[..1]) && Matches(pattern[1..], key[1..])
  {
    if segments :| Cut(pattern, key, segments) {
      CutUncons(pattern, key, segments);
      assert segments[0] == key[..1];
    }
    if TokenFits(pattern[0], key[..1]) {
      if tail :| Cut(pattern[1..], key[1..], tail) {
        assert pattern == [pattern[0]] + pattern[1..];
        CutCons(pattern[0], pattern[1..], key, key[..1], tail);
      }
    }
  }

  // The answer is determined: two least cuts coincide, and so do their captures.
  lemma {:induction false} LeastIsUnique(pattern: seq<string>, key: seq<string>, a: seq<seq<string>>,
      b: seq<seq<string>>)
    requires Cut(pattern, key, a) && Cut(pattern, key, b) && NoLonger(a, b) && NoLonger(b, a)
    ensures a == b
  {
    if pattern != [] {
      CutUncons(pattern, key, a);
      CutUncons(pattern, key, b);
      assert a[0] == key[..|a[0]|] && b[0] == key[..|b[0]|];
      LeastIsUnique(pattern[1..], key[|a[0]|..], a[1..], b[1..]);
      assert a == [a[0]] + a[1..] && b == [b[0]] + b[1..];
    }
  }

  lemma CapturesAreUnique(pattern: seq<string>, key: seq<string>, f: map<string, string>, g: map<string, string>)
    requires Captures(pattern, key, f) && Captures(pattern, key, g)
    ensures f == g
  {
    var a :| Least(pattern, key, a) && CapturedBy(pattern, a, f);
    var b :| Least(pattern, key, b) && CapturedBy(pattern, b, g);
    LeastIsUnique(pattern, key, a, b);
    forall name | name in f ensures name in g && g[name] == f[name] {
      var i :| FirstUse(pattern, i, name);
    }
    forall name | name in g ensures name in f {
      var i :| FirstUse(pattern, i, name);
    }
  }

  // match
  method Match(pattern: string, routingKey: string) returns (fields: map<string, string>, ok: bool)
    ensures ok <==> Matches(SplitDot(pattern), SplitDot(routingKey))
    ensures ok ==> Captures(SplitDot(pattern), SplitDot(routingKey), fields)
    ensures !ok ==> fields == map[]
  {
    fields, ok := MatchTokens(SplitDot(pattern), SplitDot(routingKey));
  }

  // ------------------------------------------- putting captures back

  // The pattern with each named wildcard replaced by the words it captured.
  function Substitute(pattern: seq<string>, fields: map<string, string>): seq<string>
    requires forall i :: 0 <= i < |pattern| && Named(pattern[i]) ==> pattern[i][1..] in fields
  {
    if pattern == [] then []
    else
      var tok := pattern[0];
      var words := if !Named(tok) then [tok]
                   else if IsHash(tok) then SplitDot(fields[tok[1..]]) else [fields[tok[1..]]];
      words + Substitute(pattern[1..], fields)
  }

  predicate EveryWildcardNamed(pattern: seq<string>) {
    forall i :: 0 <= i < |pattern| && (IsHash(pattern[i]) || IsStar(pattern[i])) ==> Named(pattern[i])
  }

  predicate DistinctNames(pattern: seq<string>) {
    forall i, j :: 0 <= i < j < |pattern| && Named(pattern[i]) && Named(pattern[j]) ==>
        pattern[i][1..] != pattern[j][1..]
  }

  // A multi-word capture of one empty word reads back as no word at all.
  ghost predicate SwallowsAnEmptyWord(pattern: seq<string>, segments: seq<seq<string>>)
    requires |segments| == |pattern|
  {
    exists i :: 0 <= i < |pattern| && IsHash(pattern[i]) && segments[i] == [""]
  }

  ghost predicate Holds(pattern: seq<string>, segments: seq<seq<string>>, fields: map<string, string>)
    requires |segments| == |pattern|
  {
    forall i :: 0 <= i < |pattern| && Named(pattern[i]) ==>
      pattern[i][1..] in fields && fields[pattern[i][1..]] == JoinDot(segments[i])
  }

  lemma {:induction false} SubstituteAlongCut(pattern: seq<string>, key: seq<string>, segments: seq<seq<string>>,
      fields: map<string, string>)
    requires Cut(pattern, key, segments) && DotFree(key)
    requires EveryWildcardNamed(pattern) && Holds(pattern, segments, fields)
    ensures |Substitute(pattern, fields)| <= |key|
    ensures SwallowsAnEmptyWord(pattern, segments) ==> |Substitute(pattern, fields)| < |key|
    ensures !SwallowsAnEmptyWord(pattern, segments) ==> Substitute(pattern, fields) == key
  {
    if pattern != [] {
      var tok, rest, tail := pattern[0], pattern[1..], segments[1..];
      CutUncons(pattern, key, segments);
      var more := key[|segments[0]|..];
      assert key == segments[0] + more;
      assert DotFree(segments[0]) by {
        forall i | 0 <= i < |segments[0]| ensures '.' !in segments[0][i] { assert segments[0][i] == key[i]; }
      }
      SubstituteAlongCut(rest, more, tail, fields);
      if SwallowsAnEmptyWord(pattern, segments) {
        var i :| 0 <= i < |pattern| && IsHash(pattern[i]) && segments[i] == [""];
        assert i > 0 ==> IsHash(rest[i - 1]) && tail[i - 1] == [""];
      }
      WordRoundTrip("", segments[0]);
    }
  }

  // Substituting the captures back rebuilds the key exactly when no "#" took a lone empty word.
  lemma CapturesRebuildKey(pattern: seq<string>, key: seq<string>, segments: seq<seq<string>>,
                           fields: map<string, string>)
    requires Least(pattern, key, segments) && CapturedBy(pattern, segments, fields)
    requires EveryWildcardNamed(pattern) && DistinctNames(pattern) && DotFree(key)
    ensures Holds(pattern, segments, fields)
    ensures Substitute(pattern, fields) == key <==> !SwallowsAnEmptyWord(pattern, segments)
  {
    forall i | 0 <= i < |pattern| && Named(pattern[i])
      ensures pattern[i][1..] in fields && fields[pattern[i][1..]] == JoinDot(segments[i])
    {
      assert FirstUse(pattern, i, pattern[i][1..]);
    }
    SubstituteAlongCut(pattern, key, segments, fields);
  }

  lemma {:induction false} PiecesAreKeyWords(pattern: seq<string>, key: seq<string>, segments: seq<seq<string>>)
    requires Cut(pattern, key, segments) && "" !in key
    ensures !SwallowsAnEmptyWord(pattern, segments)
  {
    if i :| 0 <= i < |pattern| && IsHash(pattern[i]) && segments[i] == [""] {
      CutUncons(pattern, key, segments);
      if i > 0 {
        assert IsHash(pattern[1..][i - 1]) && segments[1..][i - 1] == [""];
        PiecesAreKeyWords(pattern[1..], key[|segments[0]|..], segments[1..]);
      }
    }
  }

  // For whole strings: a key without empty words is rebuilt from what `Match` captured.
  lemma MatchRebuildsKey(pattern: string, routingKey: string, fields: map<string, string>)
    requires Captures(SplitDot(pattern), SplitDot(routingKey), fields)
    requires EveryWildcardNamed(SplitDot(pattern)) && DistinctNames(SplitDot(pattern))
    requires "" !in SplitDot(routingKey)
    ensures forall i :: 0 <= i < |SplitDot(pattern)| && Named(SplitDot(pattern)[i]) ==>
        SplitDot(pattern)[i][1..] in fields
    ensures JoinDot(Substitute(SplitDot(pattern), fields)) == routingKey
  {
    var toks, key := SplitDot(pattern), SplitDot(routingKey);
    var segments :| Least(toks, key, segments) && CapturedBy(toks, segments, fields);
    SplitIsDotFree(routingKey);
    PiecesAreKeyWords(toks, key, segments);
    CapturesRebuildKey(toks, key, segments, fields);
    WordRoundTrip(routingKey, []);
  }

  // ------------------------------------------- removing capture names

  function Stripped(tok: string): string {
    if Named(tok) then [tok[0]] else tok
  }

  function StripAll(toks: seq<string>): seq<string> {
    seq(|toks|, i requires 0 <= i < |toks| => Stripped(toks[i]))
  }

  // stripFieldNames
  method StripFieldNames(pattern: string) returns (plain: string)
    ensures plain == JoinDot(StripAll(SplitDot(pattern)))
  {
    var toks := SplitDot(pattern);
    ghost var was := toks;
    for i := 0 to |toks|
      invariant |toks| == |was|
      invariant forall j :: 0 <= j < |was| ==> toks[j] == if j < i then Stripped(was[j]) else was[j]
    {
      var t := toks[i];
      if |t| > 1 && (t[0] == '*' || t[0] == '#') {
        toks := toks[i := [t[0]]];
      }
    }
    assert toks == StripAll(was);
    plain := JoinDot(toks);
  }

  lemma StrippedWords(pattern: string)
    ensures SplitDot(JoinDot(StripAll(SplitDot(pattern)))) == StripAll(SplitDot(pattern))
  {
    var toks := SplitDot(pattern);
    SplitIsDotFree(pattern);
    SplitThenJoin(pattern);
    assert DotFree(StripAll(toks)) by {
      forall i | 0 <= i < |toks| ensures '.' !in StripAll(toks)[i] { }
    }
    if |toks| == 1 {
      assert StripAll(toks)[0] == Stripped(toks[0]) && toks == [toks[0]];
    }
    WordRoundTrip("", StripAll(toks));
  }

  // A stripped pattern binds exactly the keys the named one matches, captures nothing,
  // and stripping again changes nothing.
  lemma StrippingKeepsMeaning(pattern: string, plain: string, routingKey: string)
    requires plain == JoinDot(StripAll(SplitDot(pattern)))
    ensures Matches(SplitDot(plain), SplitDot(routingKey)) <==> Matches(SplitDot(pattern), SplitDot(routingKey))
    ensures forall fields :: Captures(SplitDot(plain), SplitDot(routingKey), fields) ==> fields == map[]
    ensures JoinDot(StripAll(SplitDot(plain))) == plain
  {
    var toks, key := SplitDot(pattern), SplitDot(routingKey);
    var plainToks := StripAll(toks);
    StrippedWords(pattern);
    forall segments ensures Cut(plainToks, key, segments) <==> Cut(toks, key, segments) {
      assert forall i :: 0 <= i < |toks| && |segments| == |toks| ==>
          (TokenFits(plainToks[i], segments[i]) <==> TokenFits(toks[i], segments[i]));
    }
    assert StripAll(plainToks) == plainToks;
  }

  // --------------------------------------------------- choosing a subscription

  datatype DefaultTransform = DotToSlash | Verbatim | Error | Ignore

  datatype Fallback = NoFallback | FallbackIgnore | FallbackError

  function SlashedTopic(routingKey: string): string {
    seq(|routingKey|, i requires 0 <= i < |routingKey| => if routingKey[i] == '.' then '/' else routingKey[i])
  }

  ghost predicate Subscribed(pattern: string, routingKey: string) {
    Matches(SplitDot(pattern), SplitDot(routingKey))
  }

  // The first subscription that matches.
  ghost predicate Selects(patterns: seq<string>, routingKey: string, sub: Option<nat>) {
    var limit := if sub.Some? then sub.value else |patterns|;
    && (sub.Some? ==> sub.value < |patterns| && Subscribed(patterns[sub.value], routingKey))
    && forall j :: 0 <= j < limit && j < |patterns| ==> !Subscribed(patterns[j], routingKey)
  }

  method FirstSubscription(patterns: seq<string>, routingKey: string)
    returns (sub: Option<nat>, extracted: map<string, string>)
    ensures Selects(patterns, routingKey, sub)
    ensures sub.Some? ==> Captures(SplitDot(patterns[sub.value]), SplitDot(routingKey), extracted)
    ensures sub.None? ==> extracted == map[]
  {
    for i := 0 to |patterns|
      invariant forall j :: 0 <= j < i ==> !Subscribed(patterns[j], routingKey)
    {
      var fields, ok := Match(patterns[i], routingKey);
      if ok {
        return Some(i), fields;
      }
    }
    return None, map[];
  }

  // resolveTopicPart1: the default transform applies only when no subscription matches.
  method ResolveTopic(patterns: seq<string>, transform: DefaultTransform, routingKey: string)
    returns (topic: string, extracted: map<string, string>, sub: Option<nat>, action: Fallback)
    ensures Selects(patterns, routingKey, sub)
    ensures sub.Some? ==> topic == "" && action == NoFallback
    ensures sub.Some? ==> Captures(SplitDot(patterns[sub.value]), SplitDot(routingKey), extracted)
    ensures sub.None? ==> extracted == map[]
    ensures action == FallbackError || action == FallbackIgnore ==> topic == ""
    ensures action == FallbackError <==> sub.None? && transform == Error
    ensures action == FallbackIgnore <==> sub.None? && transform == Ignore
    ensures sub.None? && transform == Verbatim ==> topic == routingKey
    ensures sub.None? && transform == DotToSlash ==>
      && |topic| == |routingKey|
      && forall i :: 0 <= i < |topic| ==> topic[i] == if routingKey[i] == '.' then '/' else routingKey[i]
  {
    sub, extracted := FirstSubscription(patterns, routingKey);
    topic, action := "", NoFallback;
    if sub.None? {
      match transform
      case DotToSlash => topic := SlashedTopic(routingKey);
      case Verbatim => topic := routingKey;
      case Error => action := FallbackError;
      case Ignore => action := FallbackIgnore;
    }
  }
}
