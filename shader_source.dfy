/**
 * Reading a shader source file: the whole file is read, then any run of
 * leading byte-order marks and no-break spaces is erased from the front
 * (the UTF-8 BOM EF BB BF, a lone FE or FF byte, and the UTF-8 no-break
 * space C2 A0) before the text is handed to the GLSL compiler.
 */
module ShaderSource {
  import opened Wrappers

  /** True when `s` starts with one of the three markers the loader erases. */
  predicate StartsWithMarker(s: seq<Byte>) {
    (|s| >= 3 && s[0] == 0xEF && s[1] == 0xBB && s[2] == 0xBF)
    || (|s| >= 1 && (s[0] == 0xFE || s[0] == 0xFF))
    || (|s| >= 2 && s[0] == 0xC2 && s[1] == 0xA0)
  }

  /** The number of bytes the loader erases for the marker at the front (0 when none). */
  function MarkerLength(s: seq<Byte>): (n: nat)
    ensures n <= |s|
    ensures n == 0 <==> !StartsWithMarker(s)
  {
    if |s| >= 3 && s[0] == 0xEF && s[1] == 0xBB && s[2] == 0xBF then 3
    else if |s| >= 1 && (s[0] == 0xFE || s[0] == 0xFF) then 1
    else if |s| >= 2 && s[0] == 0xC2 && s[1] == 0xA0 then 2
    else 0
  }

  /** The content after all leading markers are erased. */
  function Strip(s: seq<Byte>): (r: seq<Byte>)
    ensures |r| <= |s|
    ensures !StartsWithMarker(r)
    decreases |s|
  {
    var n := MarkerLength(s);
    if n == 0 then s else Strip(s[n..])
  }

  /** A sequence made only of whole markers. */
  predicate MarkerRun(s: seq<Byte>)
    decreases |s|
  {
    s == [] || (MarkerLength(s) > 0 && MarkerRun(s[MarkerLength(s)..]))
  }

  /**
   * `Shader::loadFile`: an unopenable file gives the empty string; otherwise
   * the loop erases one marker per iteration and stops at the first byte
   * that does not start a marker.
   */
  method LoadFile(file: Option<seq<Byte>>) returns (content: seq<Byte>)
    ensures file.None? ==> content == []
    ensures file.Some? ==> content == Strip(file.value)
  {
    if file.None? {
      return [];
    }
    content := file.value;
    while |content| > 0
      invariant Strip(content) == Strip(file.value)
      decreases |content|
    {
      var c := content[0];
      if |content| >= 3 && c == 0xEF && content[1] == 0xBB && content[2] == 0xBF {
        content := content[3..];
        continue;
      }
      if c == 0xFE || c == 0xFF {
        content := content[1..];
        continue;
      }
      if c == 0xC2 && |content| >= 2 && content[1] == 0xA0 {
        content := content[2..];
        continue;
      }
      break;
    }
  }

  // ---------------------------------------------------------------------
  // Properties

  /** Stripping changes the content exactly when it starts with a marker. */
  lemma UnchangedIff(s: seq<Byte>)
    ensures Strip(s) == s <==> !StartsWithMarker(s)
  {
  }

  /** Applying the strip loop to its own output changes nothing. */
  lemma Idempotent(s: seq<Byte>)
    ensures Strip(Strip(s)) == Strip(s)
  {
  }

  /** What is erased is a run of whole markers, and the rest is kept verbatim. */
  lemma {:induction false} ErasedPrefix(s: seq<Byte>) returns (p: seq<Byte>)
    ensures s == p + Strip(s) && MarkerRun(p)
    decreases |s|
  {
    var n := MarkerLength(s);
    if n == 0 {
      p := [];
      assert s == p + Strip(s);
      return;
    }
    var q := ErasedPrefix(s[n..]);
    p := s[..n] + q;
    SplitFront(s, n, q, Strip(s[n..]));
    SameMarker(s, p, n);
    RunCons(p, n, q);
  }

  /** Splitting off the first `n` bytes and putting them back. */
  lemma SplitFront(s: seq<Byte>, n: nat, q: seq<Byte>, t: seq<Byte>)
    requires n <= |s| && s[n..] == q + t
    ensures s == (s[..n] + q) + t
  {
    assert s == s[..n] + s[n..];
  }

  /** A whole marker in front of a run of markers is again a run. */
  lemma RunCons(p: seq<Byte>, n: nat, q: seq<Byte>)
    requires n == MarkerLength(p) && n > 0 && p[n..] == q && MarkerRun(q)
    ensures MarkerRun(p)
  {
  }

  /** The marker at the front depends only on the bytes it covers. */
  lemma SameMarker(s: seq<Byte>, p: seq<Byte>, n: nat)
    requires n == MarkerLength(s) && n <= |p| && p[..n] == s[..n] && n > 0
    ensures MarkerLength(p) == n
  {
    assert p[0] == s[0];
    if n >= 2 { assert p[1] == s[1]; }
    if n >= 3 { assert p[2] == s[2]; }
  }

  /** A leading EF not followed by BB BF, or a C2 not followed by A0, stops stripping. */
  lemma BrokenMarkerKept(s: seq<Byte>)
    requires |s| >= 1 && (s[0] == 0xEF || s[0] == 0xC2)
    requires s[0] == 0xEF ==> !(|s| >= 3 && s[1] == 0xBB && s[2] == 0xBF)
    requires s[0] == 0xC2 ==> !(|s| >= 2 && s[1] == 0xA0)
    ensures Strip(s) == s
  {
  }

  /** Consecutive markers of every kind are all removed: EF BB BF FE C2 A0 in front of `t` vanish. */
  lemma ConsecutiveMarkers(t: seq<Byte>)
    ensures Strip([0xEF, 0xBB, 0xBF, 0xFE, 0xC2, 0xA0] + t) == Strip(t)
  {
    var a: seq<Byte> := [0xC2, 0xA0] + t;
    var b: seq<Byte> := [0xFE] + a;
    StripMarker([0xC2, 0xA0], t);
    StripMarker([0xFE], a);
    StripMarker([0xEF, 0xBB, 0xBF], b);
    assert [0xEF, 0xBB, 0xBF, 0xFE, 0xC2, 0xA0] + t == [0xEF, 0xBB, 0xBF] + b;
  }

  /** A whole marker `m` in front of `t` is erased, and stripping goes on with `t`. */
  lemma StripMarker(m: seq<Byte>, t: seq<Byte>)
    requires |m| > 0 && MarkerLength(m + t) == |m|
    ensures Strip(m + t) == Strip(t)
  {
    assert (m + t)[|m|..] == t;
  }
}
