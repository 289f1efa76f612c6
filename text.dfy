/** String helpers shared by the server and the client: path segments and
    decimal rendering of timestamps. */
module Text {

  /** The text after the last `/` of `s` (all of `s` when it has no `/`).
      This is `s.split('/').pop()` in JavaScript. */
  function LastSegment(s: string): (r: string)
    ensures forall k | 0 <= k < |r| :: r[k] != '/'
    ensures |r| <= |s|
    decreases |s|
  {
    if |s| == 0 || s[|s| - 1] == '/' then ""
    else LastSegment(s[..|s| - 1]) + [s[|s| - 1]]
  }

  /** The last segment is what follows the last `/`: `s` is some prefix,
      empty or ending in `/`, followed by the segment. */
  lemma {:induction false} LastSegmentSplit(s: string)
    ensures var r := LastSegment(s);
            s == s[..|s| - |r|] + r && (|r| < |s| ==> s[|s| - |r| - 1] == '/')
    decreases |s|
  {
    if |s| > 0 && s[|s| - 1] != '/' {
      var init := s[..|s| - 1];
      LastSegmentSplit(init);
      var r := LastSegment(init);
      assert init == init[..|init| - |r|] + r;
      assert s == init + [s[|s| - 1]];
    }
  }

  /** Appending a `/` and a segment without `/` makes that segment the last one. */
  lemma {:induction false} LastSegmentAfterSlash(prefix: string, seg: string)
    requires forall k | 0 <= k < |seg| :: seg[k] != '/'
    ensures LastSegment(prefix + "/" + seg) == seg
  {
    var s := prefix + "/" + seg;
    if seg == [] {
      assert s[|s| - 1] == '/';
    } else {
      var init, last := seg[..|seg| - 1], seg[|seg| - 1];
      assert s[|s| - 1] == last != '/';
      assert s[..|s| - 1] == prefix + "/" + init;
      LastSegmentAfterSlash(prefix, init);
      assert LastSegment(s) == LastSegment(s[..|s| - 1]) + [last];
      assert init + [last] == seg;
    }
  }

  /** `s` without its trailing run of `/`. */
  function TrimTrailingSlashes(s: string): (r: string)
    ensures |r| <= |s| && r == s[..|r|]
    ensures |r| == 0 || r[|r| - 1] != '/'
    ensures forall k | |r| <= k < |s| :: s[k] == '/'
    decreases |s|
  {
    if |s| > 0 && s[|s| - 1] == '/' then TrimTrailingSlashes(s[..|s| - 1]) else s
  }

  /** Node's `path.basename` on a POSIX path: trailing separators are ignored,
      and the result is the last segment of what remains. */
  function Basename(p: string): (r: string)
    ensures forall k | 0 <= k < |r| :: r[k] != '/'
    ensures r == "" <==> forall k | 0 <= k < |p| :: p[k] == '/'
  {
    var trimmed := TrimTrailingSlashes(p);
    assert trimmed == "" <==> forall k | 0 <= k < |p| :: p[k] == '/' by {
      if trimmed != "" {
        assert p[|trimmed| - 1] == trimmed[|trimmed| - 1];
      }
    }
    LastSegment(trimmed)
  }

  /** The base name of `dir/name` is `name` when `name` is a non-empty plain name. */
  lemma BasenameAfterDirectory(dir: string, name: string)
    requires name != ""
    requires forall k | 0 <= k < |name| :: name[k] != '/'
    ensures Basename(dir + "/" + name) == name
  {
    var p := dir + "/" + name;
    assert p[|p| - 1] == name[|name| - 1];
    assert TrimTrailingSlashes(p) == p;
    LastSegmentAfterSlash(dir, name);
  }

  function DigitChar(d: nat): (c: char)
    requires d < 10
  {
    "0123456789"[d]
  }

  predicate IsDigit(c: char) { '0' <= c <= '9' }

  function DigitValue(c: char): (d: nat)
    requires IsDigit(c)
  {
    (c - '0') as nat
  }

  /** How JavaScript renders a non-negative integer in a template literal:
      its decimal digits, most significant first, without leading zeros. */
  function Decimal(n: nat): (r: string)
    ensures r != []
    ensures forall k | 0 <= k < |r| :: IsDigit(r[k])
    decreases n
  {
    if n < 10 then [DigitChar(n)] else Decimal(n / 10) + [DigitChar(n % 10)]
  }

  /** Reads a string of decimal digits back as a number. */
  function DecimalValue(s: string): (n: nat)
    requires forall k | 0 <= k < |s| :: IsDigit(s[k])
    decreases |s|
  {
    if s == [] then 0 else DecimalValue(s[..|s| - 1]) * 10 + DigitValue(s[|s| - 1])
  }

  /** Reading a rendered number gives the number back. */
  lemma {:induction false} DecimalRoundTrip(n: nat)
    ensures DecimalValue(Decimal(n)) == n
    decreases n
  {
    var s := Decimal(n);
    if n < 10 {
      assert s[..|s| - 1] == [];
    } else {
      DecimalRoundTrip(n / 10);
      assert s[..|s| - 1] == Decimal(n / 10);
    }
  }

  /** Distinct numbers are rendered as distinct strings. */
  lemma DecimalInjective(m: nat, n: nat)
    ensures Decimal(m) == Decimal(n) <==> m == n
  {
    if Decimal(m) == Decimal(n) {
      DecimalRoundTrip(m);
      DecimalRoundTrip(n);
    }
  }
}
