/** The parts of Python's `str`, `None` and truthiness that the options
    resolver relies on, stated over `string` (= `seq<char>`). */
module PyStr {

  /** A Python value that may be `None`. */
  datatype Option<T> = None | Some(value: T)

  /** Python truthiness of an `Optional[str]`: `None` and `""` are false,
      every other string is true (`if x:` / `if not x:`). */
  predicate Truthy(o: Option<string>)
    ensures Truthy(o) <==> o != None && o != Some("")
  {
    o.Some? && o.value != ""
  }

  /** Python `a or b` where `a` is an `Optional[str]` and `b` a string. */
  function Or(a: Option<string>, b: string): (r: string)
    ensures Truthy(a) ==> r == a.value
    ensures !Truthy(a) ==> r == b
  {
    if Truthy(a) then a.value else b
  }

  /** The string seen by every truthiness test below it: `None` read as `""`. */
  function OrEmpty(a: Option<string>): (r: string)
    ensures r == "" <==> !Truthy(a)
    ensures r != "" ==> a == Some(r)
  {
    if a.Some? then a.value else ""
  }

  /** `s.endswith(suffix)`: `s` is some prefix followed by `suffix`. */
  predicate EndsWith(s: string, suffix: string)
    ensures EndsWith(s, suffix) <==> |suffix| <= |s| && s == s[..|s| - |suffix|] + suffix
  {
    |suffix| <= |s| && s[|s| - |suffix|..] == suffix
  }

  /** `s.lstrip(c)`: drops every leading `c`. The result is the suffix of `s`
      left after a run of `c`, and it does not itself start with `c`. */
  function LStrip(s: string, c: char): (r: string)
    ensures |r| <= |s| && r == s[|s| - |r|..]
    ensures forall i :: 0 <= i < |s| - |r| ==> s[i] == c
    ensures r == [] || r[0] != c
    decreases |s|
  {
    if |s| > 0 && s[0] == c then LStrip(s[1..], c) else s
  }

  /** `s.rstrip(c)`: drops every trailing `c`. The result is the prefix of `s`
      before a run of `c`, and it does not itself end with `c`. */
  function RStrip(s: string, c: char): (r: string)
    ensures |r| <= |s| && r == s[..|r|]
    ensures forall i :: |r| <= i < |s| ==> s[i] == c
    ensures r == [] || r[|r| - 1] != c
    decreases |s|
  {
    if |s| > 0 && s[|s| - 1] == c then RStrip(s[..|s| - 1], c) else s
  }

  /** `s.strip(c)`: the result is what lies between a leading run of `c`
      (of length `k`) and a trailing run of `c`, and neither of its ends is
      `c`. */
  function Strip(s: string, c: char): (r: string)
    ensures var k := |s| - |LStrip(s, c)|;
            && k + |r| <= |s|
            && r == s[k..k + |r|]
            && (forall i :: 0 <= i < k ==> s[i] == c)
            && (forall i :: k + |r| <= i < |s| ==> s[i] == c)
    ensures r == [] || (r[0] != c && r[|r| - 1] != c)
  {
    var l := LStrip(s, c);
    var r := RStrip(l, c);
    assert r == [] || r[0] == l[0];
    r
  }

  /** A string with no `c` at either end is its own strip. */
  lemma StripUnbordered(s: string, c: char)
    requires s == [] || (s[0] != c && s[|s| - 1] != c)
    ensures Strip(s, c) == s
  {
  }

  /** `str.upper` on one character, as far as it can produce an ASCII
      capital: `a`..`z`, dotless i (U+0131) and long s (U+017F). */
  function UpperChar(ch: char): (u: char)
    ensures 'a' <= ch <= 'z' ==> u as int == ch as int - 32
    ensures ch == '\U{0131}' ==> u == 'I'
    ensures ch == '\U{017F}' ==> u == 'S'
    ensures !('a' <= ch <= 'z') && ch != '\U{0131}' && ch != '\U{017F}' ==> u == ch
  {
    if 'a' <= ch <= 'z' then (ch as int - 32) as char
    else if ch == '\U{0131}' then 'I'
    else if ch == '\U{017F}' then 'S'
    else ch
  }

  /** `s.upper()`, character by character. */
  function Upper(s: string): (r: string)
    ensures |r| == |s|
    ensures forall i :: 0 <= i < |s| ==> r[i] == UpperChar(s[i])
  {
    seq(|s|, i requires 0 <= i < |s| => UpperChar(s[i]))
  }
}
