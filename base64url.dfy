/**
 * The string normalisation `AUTH.b64urlDecode` applies before `atob`:
 * the URL-safe alphabet of section 5 of RFC 4648 is mapped back to the
 * standard alphabet of its section 4, and `=` padding is restored until the
 * length is a multiple of 4.
 */
module Base64Url {
  import opened Strings

  /** `-` becomes `+` and `_` becomes `/`, in that order. */
  function ToStandardAlphabet(s: string): string
  {
    ReplaceAll(ReplaceAll(s, '-', '+'), '_', '/')
  }

  /** n padding characters. */
  function Fill(n: nat): (r: string)
    ensures |r| == n
    ensures forall i :: 0 <= i < n ==> r[i] == '='
  {
    if n == 0 then [] else Fill(n - 1) + "="
  }

  /** How many `=` the loop appends to a string of length n. */
  function PaddingLength(n: nat): nat
  {
    (4 - n % 4) % 4
  }

  /** The string that is handed to `atob`. */
  function Normalised(s: string): string
  {
    var t := ToStandardAlphabet(s);
    t + Fill(PaddingLength(|t|))
  }

  /** The normalising part of `b64urlDecode`: two replacements and a padding loop. */
  method Normalise(str: string) returns (s: string)
    ensures s == Normalised(str)
  {
    s := ReplaceAll(str, '-', '+');
    s := ReplaceAll(s, '_', '/');
    ghost var t := s;
    while |s| % 4 != 0
      invariant |t| <= |s| <= |t| + PaddingLength(|t|)
      invariant s == t + Fill(|s| - |t|)
      decreases |t| + PaddingLength(|t|) - |s|
    {
      s := s + "=";
    }
  }

  /** What `atob` receives: the input in the standard alphabet, then fewer than four `=`, a multiple of 4 long. */
  lemma NormalisedShape(s: string)
    ensures var r := Normalised(s);
      && |r| % 4 == 0
      && |s| <= |r| < |s| + 4
      && r[..|s|] == ToStandardAlphabet(s)
      && (forall i :: |s| <= i < |r| ==> r[i] == '=')
      && '-' !in r && '_' !in r
  {
  }

  /** Input that is already in base64url form, unpadded. */
  predicate IsUnpaddedUrlSafe(s: string)
  {
    '+' !in s && '/' !in s && '=' !in s
  }

  /** The inverse alphabet swap, `+` to `-` and `/` to `_`. */
  function ToUrlAlphabet(s: string): string
  {
    ReplaceAll(ReplaceAll(s, '+', '-'), '/', '_')
  }

  /** Drops trailing `=` characters. */
  function StripPadding(s: string): string
    decreases |s|
  {
    if s != [] && s[|s| - 1] == '=' then StripPadding(s[..|s| - 1]) else s
  }

  lemma {:induction false} StripFill(t: string, n: nat)
    requires t == [] || t[|t| - 1] != '='
    ensures StripPadding(t + Fill(n)) == t
    decreases n
  {
    if n == 0 {
      assert t + Fill(0) == t;
    } else {
      var u := t + Fill(n);
      assert u == (t + Fill(n - 1)) + "=";
      assert u[..|u| - 1] == t + Fill(n - 1);
      StripFill(t, n - 1);
    }
  }

  /** Normalisation loses nothing: undoing it restores any unpadded base64url string. */
  lemma NormaliseRoundTrip(s: string)
    requires IsUnpaddedUrlSafe(s)
    ensures ToUrlAlphabet(StripPadding(Normalised(s))) == s
  {
    var t := ToStandardAlphabet(s);
    assert t == [] || t[|t| - 1] != '=' by {
      if t != [] {
        assert s[|s| - 1] != '=';
      }
    }
    StripFill(t, PaddingLength(|t|));
    var back := ToUrlAlphabet(t);
    forall i | 0 <= i < |s| ensures back[i] == s[i] {
      assert s[i] != '+' && s[i] != '/';
    }
  }
}
