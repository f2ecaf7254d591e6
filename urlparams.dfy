/**
 * The string handling of Xabber.fetchURLParams (src/core.js): `String.prototype.split`
 * on single-character separators, and the parameter dictionary built from the part of
 * the location between its first and second `?`/`#`.
 */
module UrlParams {
  import opened Wrappers
  import opened JsValues

  /** The index of the first separator in `s`, or `|s|` when there is none. */
  function FirstSep(s: string, seps: set<char>): (i: nat)
    ensures i <= |s|
    ensures i < |s| ==> s[i] in seps
    ensures forall k :: 0 <= k < i ==> s[k] !in seps
  {
    if s == [] then 0
    else if s[0] in seps then 0
    else
      var i := FirstSep(s[1..], seps);
      assert forall k :: 1 <= k < 1 + i ==> s[k] == s[1..][k - 1];
      1 + i
  }

  /** `s.split(sep)` for a separator matching one character of `seps`: separators are dropped. */
  function Split(s: string, seps: set<char>): (parts: seq<string>)
    ensures |parts| >= 1
    decreases |s|
  {
    var i := FirstSep(s, seps);
    if i == |s| then [s]
    else [s[..i]] + Split(s[i + 1..], seps)
  }

  /** No part contains a separator. */
  lemma {:induction false} SplitPartsHaveNoSeparator(s: string, seps: set<char>)
    ensures forall p :: p in Split(s, seps) ==> forall k :: 0 <= k < |p| ==> p[k] !in seps
    decreases |s|
  {
    var i := FirstSep(s, seps);
    if i < |s| {
      SplitPartsHaveNoSeparator(s[i + 1..], seps);
      assert Split(s, seps) == [s[..i]] + Split(s[i + 1..], seps);
    }
  }

  /** Splitting yields a single part exactly when `s` has no separator. */
  lemma SplitSingleIff(s: string, seps: set<char>)
    ensures |Split(s, seps)| == 1 <==> forall k :: 0 <= k < |s| ==> s[k] !in seps
  {
    var i := FirstSep(s, seps);
    if i < |s| {
      assert |Split(s, seps)| == 1 + |Split(s[i + 1..], seps)|;
    }
  }

  /** The first part always runs up to the first separator. */
  lemma SplitHead(s: string, seps: set<char>)
    ensures Split(s, seps)[0] == s[..FirstSep(s, seps)]
  {
    var i := FirstSep(s, seps);
    if i < |s| {
      assert Split(s, seps) == [s[..i]] + Split(s[i + 1..], seps);
    }
  }

  /**
   * With a separator present, the first part runs up to the first separator and the second
   * is the rest after it, up to that rest's own first separator (or its end).
   */
  lemma SplitFirstTwo(s: string, seps: set<char>)
    requires FirstSep(s, seps) < |s|
    ensures |Split(s, seps)| >= 2
    ensures Split(s, seps)[0] == s[..FirstSep(s, seps)]
    ensures var rest := s[FirstSep(s, seps) + 1..];
      Split(s, seps)[1] == rest[..FirstSep(rest, seps)]
  {
    var i := FirstSep(s, seps);
    var rest := s[i + 1..];
    assert Split(s, seps) == [s[..i]] + Split(rest, seps);
    SplitHead(rest, seps);
  }

  /** Joining the parts with the separator gives the string back. */
  lemma {:induction false} SplitJoin(s: string, c: char)
    ensures Join(Split(s, {c}), [c]) == s
    decreases |s|
  {
    var i := FirstSep(s, {c});
    if i < |s| {
      var rest := s[i + 1..];
      SplitJoin(rest, c);
      var parts := Split(s, {c});
      assert parts == [s[..i]] + Split(rest, {c});
      assert parts[1..] == Split(rest, {c});
      assert s == s[..i] + [c] + rest;
    }
  }

  /** The name of a `name=value` parameter: the text before its first `=`. */
  function ParamName(param: string): string {
    Split(param, {'='})[0]
  }

  /** The value of a parameter: null without `=`, otherwise the text between its first and second `=`. */
  function ParamValue(param: string): Option<string> {
    var parts := Split(param, {'='});
    if |parts| == 1 then None else Some(parts[1])
  }

  /** A parameter without `=` is a name mapped to null. */
  lemma ParamWithoutEquals(param: string)
    requires forall k :: 0 <= k < |param| ==> param[k] != '='
    ensures ParamName(param) == param && ParamValue(param) == None
  {
    SplitSingleIff(param, {'='});
    assert FirstSep(param, {'='}) == |param|;
  }

  /** A parameter with `=`: the name before it, the value up to the next `=` (so `a=` gives ""). */
  lemma ParamWithEquals(param: string, i: nat)
    requires i < |param| && param[i] == '=' && forall k :: 0 <= k < i ==> param[k] != '='
    ensures ParamName(param) == param[..i]
    ensures var rest := param[i + 1..];
      var j := FirstSep(rest, {'='});
      ParamValue(param) == Some(rest[..j])
  {
    var f := FirstSep(param, {'='});
    assert f == i;
    SplitFirstTwo(param, {'='});
  }

  /** The loop of fetchURLParams as a left fold: each parameter overwrites its name's entry. */
  function ParamsOf(params: seq<string>): map<string, Option<string>> {
    if params == [] then map[]
    else
      var last := params[|params| - 1];
      ParamsOf(params[..|params| - 1])[ParamName(last) := ParamValue(last)]
  }

  /** A name has an entry iff some parameter carries it. */
  lemma {:induction false} ParamsOfNames(params: seq<string>, name: string)
    ensures name in ParamsOf(params) <==> exists k :: 0 <= k < |params| && ParamName(params[k]) == name
  {
    if params != [] {
      var front := params[..|params| - 1];
      ParamsOfNames(front, name);
      assert forall k :: 0 <= k < |front| ==> params[k] == front[k];
    }
  }

  /** The last parameter carrying a name decides its value: later duplicates overwrite earlier ones. */
  lemma {:induction false} LastOccurrenceWins(params: seq<string>, k: nat)
    requires k < |params|
    requires forall l :: k < l < |params| ==> ParamName(params[l]) != ParamName(params[k])
    ensures ParamName(params[k]) in ParamsOf(params)
    ensures ParamsOf(params)[ParamName(params[k])] == ParamValue(params[k])
  {
    if k < |params| - 1 {
      var front := params[..|params| - 1];
      assert front[k] == params[k];
      assert forall l :: k < l < |front| ==> front[l] == params[l];
      LastOccurrenceWins(front, k);
    }
  }

  /** The delimiters `split(/[?#]/)` cuts the location at. */
  const Delimiters: set<char> := {'?', '#'}

  /** `url_params` as fetchURLParams leaves it for a given `location.href`. */
  function URLParams(href: string): map<string, Option<string>> {
    var parts := Split(href, Delimiters);
    if |parts| > 1 then ParamsOf(Split(parts[1], {'&'})) else map[]
  }

  /** Without `?` or `#` in the location there are no parameters. */
  lemma NoDelimiterNoParams(href: string)
    requires forall k :: 0 <= k < |href| ==> href[k] != '?' && href[k] != '#'
    ensures URLParams(href) == map[]
  {
    SplitSingleIff(href, Delimiters);
  }

  /**
   * With a delimiter, the parameters are read from the text after the first delimiter up to
   * the next one (or the end): anything after a second `?` or `#` is ignored.
   */
  lemma ParamsFromFirstSegment(href: string)
    requires FirstSep(href, Delimiters) < |href|
    ensures var rest := href[FirstSep(href, Delimiters) + 1..];
      URLParams(href) == ParamsOf(Split(rest[..FirstSep(rest, Delimiters)], {'&'}))
  {
    SplitFirstTwo(href, Delimiters);
  }
}
