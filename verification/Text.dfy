/** ASCII text as the services use it: lower-casing, one trailing dot, split and join on dots. */
module Text {
  function LowerChar(c: char): char {
    if 'A' <= c <= 'Z' then c - 'A' + 'a' else c
  }

  function ToLower(s: string): (r: string)
    ensures |r| == |s|
    ensures forall i | 0 <= i < |s| :: r[i] == LowerChar(s[i])
  {
    seq(|s|, i requires 0 <= i < |s| => LowerChar(s[i]))
  }

  /** `replace(/\.$/, '')`: drops one dot at the very end. */
  function StripDot(s: string): string {
    if s != "" && s[|s| - 1] == '.' then s[..|s| - 1] else s
  }

  function Normalise(s: string): string { StripDot(ToLower(s)) }

  predicate EndsWith(s: string, t: string) {
    |t| <= |s| && s[|s| - |t|..] == t
  }

  /** Index of the first dot, or the length when there is none. */
  function FirstDot(s: string): (k: nat)
    ensures k <= |s|
    ensures k < |s| ==> s[k] == '.'
    ensures forall i | 0 <= i < k :: s[i] != '.'
    ensures k < |s| <==> '.' in s
  {
    if s == "" then 0 else if s[0] == '.' then 0 else assert s == [s[0]] + s[1..]; 1 + FirstDot(s[1..])
  }

  /** `split('.')`: never empty, one more part than there are dots. */
  function Split(s: string): (parts: seq<string>)
    ensures |parts| > 0
    decreases |s|
  {
    var k := FirstDot(s);
    if k == |s| then [s] else [s[..k]] + Split(s[k + 1..])
  }

  /** `join('.')`. */
  function Join(parts: seq<string>): string {
    if parts == [] then "" else if |parts| == 1 then parts[0] else parts[0] + "." + Join(parts[1..])
  }

  lemma {:induction false} JoinSplit(s: string)
    ensures Join(Split(s)) == s
    decreases |s|
  {
    var k := FirstDot(s);
    if k < |s| {
      var rest := Split(s[k + 1..]);
      JoinSplit(s[k + 1..]);
      assert ([s[..k]] + rest)[1..] == rest;
      assert s[k..] == "." + s[k + 1..];
    }
  }
}
