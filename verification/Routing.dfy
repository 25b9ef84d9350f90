/** Deterministic routing of a query to the registered projects by whole-token alias matching. */
module Routing {
  type Words = seq<string>

  predicate Alnum(c: char) {
    'a' <= c <= 'z' || '0' <= c <= '9'
  }

  /** A case mapping, character by character; all that matters is that it leaves these alone. */
  ghost predicate CaseMapping(lower: char -> string) {
    lower(' ') == " " && forall c: char :: Alnum(c) ==> lower(c) == [c]
  }

  function Lower(s: string, lower: char -> string): string {
    if s == "" then "" else lower(s[0]) + Lower(s[1..], lower)
  }

  /** Each run of other characters becomes one space. */
  function Collapse(s: string): string {
    if s == "" then "" else if Alnum(s[0]) then [s[0]] + Collapse(s[1..]) else " " + Collapse(s[Junk(s)..])
  }

  function Junk(s: string): (n: nat)
    ensures n <= |s| && (s != "" && !Alnum(s[0]) ==> n > 0)
  {
    if s == "" || Alnum(s[0]) then 0 else 1 + Junk(s[1..])
  }

  function Run(s: string): (n: nat)
    ensures n <= |s| && (s != "" && s[0] != ' ' ==> n > 0)
    ensures forall i :: 0 <= i < n ==> s[i] != ' '
    ensures n == |s| || s[n] == ' '
  {
    if s == "" || s[0] == ' ' then 0 else 1 + Run(s[1..])
  }

  function SplitWords(s: string): Words {
    if s == "" then [] else if s[0] == ' ' then SplitWords(s[1..]) else [s[..Run(s)]] + SplitWords(s[Run(s)..])
  }

  function Join(ws: Words): string {
    if ws == [] then "" else if |ws| == 1 then ws[0] else ws[0] + " " + Join(ws[1..])
  }

  /** The tokens of a text. */
  function Tokens(s: string, lower: char -> string): Words {
    SplitWords(Collapse(Lower(s, lower)))
  }

  function Normalize(s: string, lower: char -> string): string {
    Join(Tokens(s, lower))
  }

  predicate Word(w: string) {
    w != "" && forall i :: 0 <= i < |w| ==> Alnum(w[i])
  }

  ghost predicate AllWords(ws: Words) {
    forall w :: w in ws ==> Word(w)
  }

  predicate Plain(s: string) {
    forall i :: 0 <= i < |s| ==> Alnum(s[i]) || s[i] == ' '
  }

  lemma {:induction false} CollapsePlain(s: string)
    ensures Plain(Collapse(s))
    decreases |s|
  {
    if s != "" {
      CollapsePlain(if Alnum(s[0]) then s[1..] else s[Junk(s)..]);
    }
  }

  lemma {:induction false} SplitsIntoWords(s: string)
    requires Plain(s)
    ensures AllWords(SplitWords(s))
    decreases |s|
  {
    if s != "" {
      if s[0] == ' ' { SplitsIntoWords(s[1..]); } else { SplitsIntoWords(s[Run(s)..]); }
    }
  }

  lemma TokensAreWords(s: string, lower: char -> string)
    ensures AllWords(Tokens(s, lower))
  {
    CollapsePlain(Lower(s, lower));
    SplitsIntoWords(Collapse(Lower(s, lower)));
  }

  lemma {:induction false} LowerFixes(s: string, lower: char -> string)
    requires CaseMapping(lower) && Plain(s)
    ensures Lower(s, lower) == s
  {
    if s != "" { LowerFixes(s[1..], lower); }
  }

  /** Single-spaced text: nothing for the substitution to change. */
  predicate Spaced(s: string) {
    Plain(s) && forall i :: 0 <= i < |s| - 1 && s[i] == ' ' ==> s[i + 1] != ' '
  }

  lemma {:induction false} CollapseFixes(s: string)
    requires Spaced(s)
    ensures Collapse(s) == s
  {
    if s != "" {
      CollapseFixes(s[1..]);
      if s[0] == ' ' { assert |s| > 1 ==> Alnum(s[1]); assert Junk(s[1..]) == 0; }
    }
  }

  lemma {:induction false} JoinSpaced(ws: Words)
    requires AllWords(ws)
    ensures Spaced(Join(ws)) && (ws != [] ==> Join(ws) != "" && Join(ws)[0] != ' ')
  {
    if ws != [] {
      assert ws[0] in ws && Word(ws[0]);
      if |ws| > 1 {
        assert forall w :: w in ws[1..] ==> w in ws;
        JoinSpaced(ws[1..]);
      }
    }
  }

  lemma {:induction false} RunOf(w: string, s: string)
    requires (forall i :: 0 <= i < |w| ==> w[i] != ' ') && (s == "" || s[0] == ' ')
    ensures Run(w + s) == |w|
  {
    if w != "" {
      RunOf(w[1..], s);
      assert (w + s)[1..] == w[1..] + s;
    } else {
      assert w + s == s;
    }
  }

  lemma SplitFirst(w: string, rest: string)
    requires w != "" && (forall i :: 0 <= i < |w| ==> w[i] != ' ') && (rest == "" || rest[0] == ' ')
    ensures SplitWords(w + rest) == [w] + SplitWords(rest)
  {
    RunOf(w, rest);
    assert (w + rest)[..|w|] == w && (w + rest)[|w|..] == rest;
  }

  lemma {:induction false} SplitJoin(ws: Words)
    requires AllWords(ws)
    ensures SplitWords(Join(ws)) == ws
  {
    if ws != [] {
      var w := ws[0];
      assert w in ws && Word(w);
      if |ws| == 1 {
        SplitFirst(w, "");
        assert w + "" == w && ws == [w];
      } else {
        var rest := " " + Join(ws[1..]);
        assert forall v :: v in ws[1..] ==> v in ws;
        SplitJoin(ws[1..]);
        SplitFirst(w, rest);
        assert Join(ws) == w + rest && rest[1..] == Join(ws[1..]);
        assert SplitWords(rest) == SplitWords(rest[1..]);
        assert ws == [w] + ws[1..];
      }
    }
  }

  /** Normalized text has the tokens it was made of. */
  lemma NormalizeKeepsTokens(s: string, lower: char -> string)
    requires CaseMapping(lower)
    ensures Tokens(Normalize(s, lower), lower) == Tokens(s, lower)
  {
    var ws := Tokens(s, lower);
    TokensAreWords(s, lower);
    JoinSpaced(ws);
    LowerFixes(Join(ws), lower);
    CollapseFixes(Join(ws));
    SplitJoin(ws);
  }

  lemma NormalizeIdempotent(s: string, lower: char -> string)
    requires CaseMapping(lower)
    ensures Normalize(Normalize(s, lower), lower) == Normalize(s, lower)
  {
    NormalizeKeepsTokens(s, lower);
  }

  /** A match of the delimiter pattern at position `i`. */
  predicate MatchAt(query: string, pattern: string, i: nat) {
    && i + |pattern| <= |query| && query[i..i + |pattern|] == pattern
    && (i == 0 || query[i - 1] == ' ')
    && (i + |pattern| == |query| || query[i + |pattern|] == ' ')
  }

  predicate AliasPresent(query: string, alias: string, lower: char -> string) {
    var pattern := Normalize(alias, lower);
    pattern != "" && exists i :: 0 <= i <= |query| && MatchAt(query, pattern, i)
  }

  predicate SublistAt(ws: Words, part: Words, k: nat) {
    k + |part| <= |ws| && ws[k..k + |part|] == part
  }

  lemma {:induction false} JoinSplit(front: Words, back: Words)
    requires front != [] && back != []
    ensures Join(front + back) == Join(front) + " " + Join(back)
  {
    var all := front + back;
    if |front| == 1 {
      assert all[1..] == back;
    } else {
      assert all[1..] == front[1..] + back;
      JoinSplit(front[1..], back);
    }
  }

  lemma SublistMatches(ws: Words, part: Words, k: nat) returns (i: nat)
    requires part != [] && SublistAt(ws, part, k)
    ensures MatchAt(Join(ws), Join(part), i)
  {
    var front, back := ws[..k], ws[k + |part|..];
    assert ws == front + (part + back);
    var tail := Join(part + back);
    if back != [] { JoinSplit(part, back); } else { assert part + back == part; }
    assert tail[..|Join(part)|] == Join(part) && (back != [] ==> tail[|Join(part)|] == ' ');
    if front != [] {
      JoinSplit(front, part + back);
      i := |Join(front)| + 1;
      assert Join(ws)[i..] == tail;
    } else {
      i := 0;
      assert ws == part + back;
    }
    assert Join(ws)[i..i + |Join(part)|] == Join(ws)[i..][..|Join(part)|];
  }

  lemma FirstWord(ws: Words)
    requires AllWords(ws) && ws != []
    ensures var s := Join(ws);
      && Word(ws[0]) && |ws[0]| <= |s| && s[..|ws[0]|] == ws[0]
      && (|ws| == 1 ==> s == ws[0])
      && (|ws| > 1 ==> |ws[0]| < |s| && s[|ws[0]|] == ' ' && s[|ws[0]| + 1..] == Join(ws[1..]) && AllWords(ws[1..]))
  {
    assert ws[0] in ws;
  }

  /** Where a joined word list continues or ends another one's text at a boundary, their first words agree. */
  lemma SameFirstWord(ws: Words, part: Words)
    requires AllWords(ws) && AllWords(part) && part != [] && MatchAt(Join(ws), Join(part), 0)
    ensures ws != [] && ws[0] == part[0]
  {
    FirstWord(part);
    if ws != [] {
      FirstWord(ws);
      var s, u, v := Join(ws), ws[0], part[0];
      assert s[..|Join(part)|] == Join(part);
      assert forall i :: 0 <= i < |Join(part)| ==> s[i] == Join(part)[i];
      assert forall i :: 0 <= i < |v| ==> s[i] == v[i];
      assert forall i :: 0 <= i < |u| ==> s[i] == u[i];
      assert |u| == |v|;
      assert u == s[..|u|] == v;
    }
  }

  lemma {:induction false} MatchIsPrefix(ws: Words, part: Words)
    requires AllWords(ws) && AllWords(part) && part != [] && MatchAt(Join(ws), Join(part), 0)
    ensures SublistAt(ws, part, 0)
  {
    SameFirstWord(ws, part);
    FirstWord(ws);
    FirstWord(part);
    if |part| > 1 {
      var n := |ws[0]| + 1;
      assert Join(ws)[..|Join(part)|] == Join(part);
      assert Join(ws)[n - 1] == Join(part)[n - 1] == ' ';
      assert |ws| > 1;
      assert Join(ws)[n..][..|Join(part[1..])|] == Join(part)[n..];
      MatchIsPrefix(ws[1..], part[1..]);
      assert ws[..|part|] == [ws[0]] + ws[1..][..|part| - 1];
      assert part == [part[0]] + part[1..];
    } else {
      assert ws[0..1] == part;
    }
  }

  lemma {:induction false} MatchIsSublist(ws: Words, part: Words, i: nat) returns (k: nat)
    requires AllWords(ws) && AllWords(part) && part != [] && MatchAt(Join(ws), Join(part), i)
    ensures SublistAt(ws, part, k)
    decreases |ws|
  {
    if i == 0 {
      MatchIsPrefix(ws, part);
      k := 0;
    } else {
      MatchPastFirst(ws, part, i);
      k := MatchIsSublist(ws[1..], part, i - |ws[0]| - 1);
      assert ws[k + 1..k + 1 + |part|] == ws[1..][k..k + |part|];
      k := k + 1;
    }
  }

  /** A match that does not start the text lies in the text of the later words. */
  lemma MatchPastFirst(ws: Words, part: Words, i: nat)
    requires AllWords(ws) && AllWords(part) && part != [] && i > 0 && MatchAt(Join(ws), Join(part), i)
    ensures ws != [] && i > |ws[0]| && AllWords(ws[1..]) && MatchAt(Join(ws[1..]), Join(part), i - |ws[0]| - 1)
  {
    var s, p := Join(ws), Join(part);
    FirstWord(ws);
    JoinSpaced(part);
    var n := |ws[0]| + 1;
    assert forall j :: 0 <= j < |ws[0]| ==> s[j] == ws[0][j];
    assert i >= n;
    assert s[n..][i - n..i - n + |p|] == s[i..i + |p|];
  }

  /**
   Alias matching is token matching: for any query and alias, the alias is found exactly when it has
   tokens and they stand in the query's tokens next to one another, in order.
   */
  lemma AliasIsSublist(query: string, alias: string, lower: char -> string)
    ensures var ws, part := Tokens(query, lower), Tokens(alias, lower);
      AliasPresent(Normalize(query, lower), alias, lower) <==>
        part != [] && exists k :: 0 <= k <= |ws| && SublistAt(ws, part, k)
  {
    var ws, part := Tokens(query, lower), Tokens(alias, lower);
    TokensAreWords(query, lower);
    TokensAreWords(alias, lower);
    JoinSpaced(part);
    if part != [] {
      if i :| 0 <= i <= |Join(ws)| && MatchAt(Join(ws), Join(part), i) {
        var k := MatchIsSublist(ws, part, i);
      }
      if k :| 0 <= k <= |ws| && SublistAt(ws, part, k) {
        var i := SublistMatches(ws, part, k);
      }
    }
  }

  /** The length of the run of letters and digits a text begins with. */
  function Letters(s: string): (n: nat)
    ensures n <= |s|
  {
    if s != "" && ('a' <= s[0] <= 'z' || '0' <= s[0] <= '9') then 1 + Letters(s[1..]) else 0
  }

  /** The longest runs of letters and digits of a text, from left to right. */
  function Runs(s: string): Words {
    if s == "" then []
    else if Letters(s) == 0 then Runs(s[1..])
    else [s[..Letters(s)]] + Runs(s[Letters(s)..])
  }

  lemma {:induction false} CollapseRun(s: string)
    ensures Collapse(s) == s[..Letters(s)] + Collapse(s[Letters(s)..])
    ensures forall i :: 0 <= i < Letters(s) ==> s[i] != ' '
    ensures Letters(s) < |s| ==> !Alnum(s[Letters(s)])
  {
    if Letters(s) > 0 {
      CollapseRun(s[1..]);
      assert s[1..][Letters(s) - 1..] == s[Letters(s)..];
      assert s[..Letters(s)] == [s[0]] + s[1..][..Letters(s) - 1];
    } else {
      assert s[..0] + Collapse(s[0..]) == Collapse(s);
    }
  }

  lemma {:induction false} RunsSkipJunk(s: string)
    ensures Runs(s[Junk(s)..]) == Runs(s)
  {
    if Junk(s) > 0 {
      RunsSkipJunk(s[1..]);
      assert s[1..][Junk(s) - 1..] == s[Junk(s)..];
    }
  }

  /** Whole tokens: what the substitution and the splitting find are the longest runs of letters and digits. */
  lemma {:induction false} TokensAreRuns(s: string)
    ensures SplitWords(Collapse(s)) == Runs(s)
    decreases |s|
  {
    if s != "" {
      var n := Letters(s);
      if n > 0 {
        var rest := Collapse(s[n..]);
        CollapseRun(s);
        SplitFirst(s[..n], rest);
        TokensAreRuns(s[n..]);
      } else {
        TokensAreRuns(s[Junk(s)..]);
        RunsSkipJunk(s);
        assert Collapse(s)[1..] == Collapse(s[Junk(s)..]);
      }
    }
  }

  datatype Route = Route(project: string, aliases: seq<string>)

  datatype Status = Unknown | Routed | MultiRoute | Ambiguous

  predicate Hit(query: string, route: Route, lower: char -> string) {
    exists a :: a in route.aliases + [route.project] && AliasPresent(Normalize(query, lower), a, lower)
  }

  function Hits(query: string, routes: seq<Route>, lower: char -> string): seq<Route> {
    if routes == [] then []
    else
      var n := |routes| - 1;
      Hits(query, routes[..n], lower) + if Hit(query, routes[n], lower) then [routes[n]] else []
  }

  function StatusOf(hits: nat, multi: bool): Status {
    if hits == 0 then Unknown else if hits == 1 then Routed else if multi then MultiRoute else Ambiguous
  }

  const MARKERS: seq<string> := ["and", "both", "with", "between", "compare", "connect", "across"]

  /**
   The marker stands at `i` as a word: `wordy` are the characters words are made of, and `alike` says which
   characters the search takes for one another.
   */
  predicate MarkerAt(query: string, marker: string, i: nat, alike: (char, char) -> bool, wordy: char -> bool) {
    && i + |marker| <= |query| && (forall k :: 0 <= k < |marker| ==> alike(query[i + k], marker[k]))
    && (i == 0 || !wordy(query[i - 1])) && (i + |marker| == |query| || !wordy(query[i + |marker|]))
  }

  /** The query says that it means several projects. */
  predicate Multi(query: string, alike: (char, char) -> bool, wordy: char -> bool) {
    || (exists c :: c in query && c in "+/&")
    || exists m :: m in MARKERS && exists i :: 0 <= i <= |query| && MarkerAt(query, m, i, alike, wordy)
  }

  /** Exactly the aliases of the route, its own name among them, that the query contains. */
  ghost predicate MatchedBy(normalized: string, route: Route, lower: char -> string, matched: seq<string>) {
    forall a :: a in matched <==> a in route.aliases + [route.project] && AliasPresent(normalized, a, lower)
  }

  method ResolveQuery(query: string, routes: seq<Route>, lower: char -> string, alike: (char, char) -> bool,
                      wordy: char -> bool)
    returns (status: Status, matches: seq<(Route, seq<string>)>)
    ensures |matches| == |Hits(query, routes, lower)| && status == StatusOf(|matches|, Multi(query, alike, wordy))
    ensures forall k :: 0 <= k < |matches| ==> matches[k].0 == Hits(query, routes, lower)[k]
    ensures forall k :: 0 <= k < |matches| ==> MatchedBy(Normalize(query, lower), matches[k].0, lower, matches[k].1)
    ensures forall k, a :: 0 <= k < |matches| ==>
      (a in matches[k].1 <==>
       (a == matches[k].0.project || a in matches[k].0.aliases) && Mentions(query, a, lower))
    ensures status == Unknown <==> |matches| == 0
    ensures status == Routed <==> |matches| == 1
    ensures status == MultiRoute <==> |matches| >= 2 && Multi(query, alike, wordy)
    ensures status == Ambiguous <==> |matches| >= 2 && !Multi(query, alike, wordy)
  {
    forall a { MentionedIffPresent(query, a, lower); }
    var normalized := Normalize(query, lower);
    matches := [];
    for n := 0 to |routes|
      invariant |matches| == |Hits(query, routes[..n], lower)|
      invariant forall k :: 0 <= k < |matches| ==> matches[k].0 == Hits(query, routes[..n], lower)[k]
      invariant forall k :: 0 <= k < |matches| ==> MatchedBy(normalized, matches[k].0, lower, matches[k].1)
    {
      var route := routes[n];
      assert routes[..n + 1][..n] == routes[..n];
      var matched := MatchedAliases(normalized, route, lower);
      if matched != [] {
        assert matched[0] in matched;
        matches := matches + [(route, matched)];
      }
    }
    assert routes[..|routes|] == routes;
    status := StatusOf(|matches|, Multi(query, alike, wordy));
  }

  method MatchedAliases(normalized: string, route: Route, lower: char -> string) returns (matched: seq<string>)
    ensures MatchedBy(normalized, route, lower, matched)
  {
    var all := route.aliases;
    if route.project !in all {
      all := all + [route.project];
    }
    matched := [];
    for n := 0 to |all|
      invariant forall a :: a in matched <==> a in all[..n] && AliasPresent(normalized, a, lower)
    {
      if AliasPresent(normalized, all[n], lower) {
        matched := matched + [all[n]];
      }
    }
    assert all[..|all|] == all;
  }

  /** The alias has tokens, and they stand in the query's tokens next to one another, in order. */
  ghost predicate Mentions(query: string, alias: string, lower: char -> string) {
    var ws, part := Runs(Lower(query, lower)), Runs(Lower(alias, lower));
    part != [] && exists k :: 0 <= k <= |ws| && SublistAt(ws, part, k)
  }

  lemma MentionedIffPresent(query: string, alias: string, lower: char -> string)
    ensures AliasPresent(Normalize(query, lower), alias, lower) <==> Mentions(query, alias, lower)
  {
    AliasIsSublist(query, alias, lower);
    TokensAreRuns(Lower(query, lower));
    TokensAreRuns(Lower(alias, lower));
  }

  /** A route matches exactly when the query mentions its name or one of its aliases. */
  lemma HitIff(query: string, route: Route, lower: char -> string)
    ensures Hit(query, route, lower) <==>
      Mentions(query, route.project, lower) || exists a :: a in route.aliases && Mentions(query, a, lower)
  {
    forall a ensures AliasPresent(Normalize(query, lower), a, lower) <==> Mentions(query, a, lower) {
      MentionedIffPresent(query, a, lower);
    }
    assert route.project in route.aliases + [route.project];
  }

  lemma HitsOneMore(query: string, routes: seq<Route>, route: Route, lower: char -> string)
    ensures Hits(query, routes + [route], lower) ==
      Hits(query, routes, lower) + if Hit(query, route, lower) then [route] else []
  {
    assert (routes + [route])[..|routes|] == routes;
  }

  lemma LastOff(routes: seq<Route>, more: seq<Route>)
    requires more != []
    ensures var n := |more| - 1;
      routes + more == routes + more[..n] + [more[n]] && more == more[..n] + [more[n]]
  {
  }

  lemma Regroup(a: seq<Route>, b: seq<Route>, c: seq<Route>)
    ensures a + b + c == a + (b + c)
  {
  }

  /** Matched routes stand in the order they are registered in. */
  lemma {:induction false} HitsConcat(query: string, routes: seq<Route>, more: seq<Route>, lower: char -> string)
    ensures Hits(query, routes + more, lower) == Hits(query, routes, lower) + Hits(query, more, lower)
    decreases |more|
  {
    if more == [] {
      assert routes + more == routes;
    } else {
      var front, last := more[..|more| - 1], more[|more| - 1];
      LastOff(routes, more);
      HitsConcat(query, routes, front, lower);
      HitsOneMore(query, routes + front, last, lower);
      HitsOneMore(query, front, last, lower);
      Regroup(Hits(query, routes, lower), Hits(query, front, lower), if Hit(query, last, lower) then [last] else []);
    }
  }

  lemma {:induction false} HitsCount(query: string, routes: seq<Route>, lower: char -> string, r: Route)
    ensures multiset(Hits(query, routes, lower))[r] == if Hit(query, r, lower) then multiset(routes)[r] else 0
  {
    if routes != [] {
      var n := |routes| - 1;
      HitsCount(query, routes[..n], lower, r);
      assert routes == routes[..n] + [routes[n]];
    }
  }

  /** The outcome does not depend on the order in which the routes are registered. */
  lemma OrderIrrelevant(query: string, routes: seq<Route>, others: seq<Route>, lower: char -> string)
    requires multiset(routes) == multiset(others)
    ensures multiset(Hits(query, routes, lower)) == multiset(Hits(query, others, lower))
    ensures forall multi ::
      StatusOf(|Hits(query, routes, lower)|, multi) == StatusOf(|Hits(query, others, lower)|, multi)
  {
    var a, b := Hits(query, routes, lower), Hits(query, others, lower);
    forall r ensures multiset(a)[r] == multiset(b)[r] {
      HitsCount(query, routes, lower, r);
      HitsCount(query, others, lower, r);
    }
    assert |multiset(a)| == |a| && |multiset(b)| == |b|;
  }
}
