/** The tokenizer of str_split.cpp: `split` with a single delimiter character
    (read through `std::getline`) and `split` with a set of delimiter
    characters (read through `std::strtok`), each in an appending form and a
    value-returning form. Both yield the non-empty maximal runs of
    non-delimiter characters, which `Tokens` defines once. */
module Splitting {

  /** The first index at or after `from` whose character is a delimiter, or |s|. */
  function RunEnd(s: string, delims: set<char>, from: nat): (j: nat)
    requires from <= |s|
    ensures from <= j <= |s|
    ensures forall k :: from <= k < j ==> s[k] !in delims
    ensures j < |s| ==> s[j] in delims
    decreases |s| - from
  {
    if from == |s| || s[from] in delims then from else RunEnd(s, delims, from + 1)
  }

  /** The non-empty maximal runs of characters outside `delims`, left to right. */
  function Tokens(s: string, delims: set<char>): seq<string>
    decreases |s|
  {
    if s == [] then []
    else if s[0] in delims then Tokens(s[1..], delims)
    else
      var j := RunEnd(s, delims, 0);
      [s[..j]] + Tokens(s[j..], delims)
  }

  /** `s` with every delimiter character removed. */
  function Remove(s: string, delims: set<char>): string
  {
    if s == [] then [] else (if s[0] in delims then [] else [s[0]]) + Remove(s[1..], delims)
  }

  function Concat(ts: seq<string>): string
  {
    if ts == [] then [] else ts[0] + Concat(ts[1..])
  }

  /** The part of a C string that `strtok` sees: everything before the first NUL. */
  function CString(s: string): (c: string)
    ensures '\0' !in c && c <= s
  {
    s[..RunEnd(s, {'\0'}, 0)]
  }

  lemma {:induction false} RunEndIs(s: string, delims: set<char>, from: nat, j: nat)
    requires from <= j <= |s|
    requires forall k :: from <= k < j ==> s[k] !in delims
    requires j == |s| || s[j] in delims
    ensures RunEnd(s, delims, from) == j
    decreases j - from
  {
    if from < j {
      RunEndIs(s, delims, from + 1, j);
    }
  }

  /** One read of either loop: the run `s[pos..j]` ends at a delimiter or at the
      end; the tokens from `pos` on are that run (when non-empty) followed by
      the tokens after the delimiter. */
  lemma TokensAt(s: string, delims: set<char>, pos: nat, j: nat)
    requires pos <= j <= |s| && pos < |s|
    requires forall k :: pos <= k < j ==> s[k] !in delims
    requires j == |s| || s[j] in delims
    ensures Tokens(s[pos..], delims)
         == (if j == pos then [] else [s[pos..j]])
          + (if j < |s| then Tokens(s[j + 1..], delims) else [])
  {
    var t := s[pos..];
    if j == pos {
      assert t[0] in delims;
      assert t[1..] == s[pos + 1..];
    } else {
      assert t[0] !in delims;
      RunEndIs(t, delims, 0, j - pos);
      assert t[..j - pos] == s[pos..j];
      assert t[j - pos..] == s[j..];
      if j < |s| {
        var u := s[j..];
        assert u[0] in delims && u[1..] == s[j + 1..];
      } else {
        assert s[j..] == [];
      }
    }
  }

  /** Every token is non-empty and holds no delimiter. */
  lemma {:induction false} TokensAreClean(s: string, delims: set<char>)
    ensures forall i :: 0 <= i < |Tokens(s, delims)| ==>
      Tokens(s, delims)[i] != [] && forall c :: c in Tokens(s, delims)[i] ==> c !in delims
    decreases |s|
  {
    if s == [] {
    } else if s[0] in delims {
      TokensAreClean(s[1..], delims);
    } else {
      var j := RunEnd(s, delims, 0);
      TokensAreClean(s[j..], delims);
      var ts := Tokens(s, delims);
      assert ts == [s[..j]] + Tokens(s[j..], delims);
      forall i | 0 <= i < |ts|
        ensures ts[i] != [] && forall c :: c in ts[i] ==> c !in delims
      {
        if i == 0 {
          assert ts[0] == s[..j] && s[0] in s[..j];
          forall c | c in s[..j] ensures c !in delims {
            var k :| 0 <= k < j && s[k] == c;
          }
        } else {
          assert ts[i] == Tokens(s[j..], delims)[i - 1];
        }
      }
    }
  }

  lemma {:induction false} RemoveAppend(a: string, b: string, delims: set<char>)
    ensures Remove(a + b, delims) == Remove(a, delims) + Remove(b, delims)
    decreases |a|
  {
    if a == [] {
      assert a + b == b;
    } else {
      assert (a + b)[0] == a[0] && (a + b)[1..] == a[1..] + b;
      RemoveAppend(a[1..], b, delims);
    }
  }

  lemma {:induction false} RemoveClean(a: string, delims: set<char>)
    requires forall k :: 0 <= k < |a| ==> a[k] !in delims
    ensures Remove(a, delims) == a
    decreases |a|
  {
    if a != [] {
      RemoveClean(a[1..], delims);
    }
  }

  /** Joining the tokens gives back the input with its delimiters removed. */
  lemma {:induction false} TokensConcat(s: string, delims: set<char>)
    ensures Concat(Tokens(s, delims)) == Remove(s, delims)
    decreases |s|
  {
    if s == [] {
    } else if s[0] in delims {
      TokensConcat(s[1..], delims);
    } else {
      var j := RunEnd(s, delims, 0);
      TokensConcat(s[j..], delims);
      var ts := Tokens(s, delims);
      assert ts[0] == s[..j] && ts[1..] == Tokens(s[j..], delims);
      assert s == s[..j] + s[j..];
      RemoveAppend(s[..j], s[j..], delims);
      RemoveClean(s[..j], delims);
    }
  }

  /** `split(s, delim, elems)`: `std::getline` reads the items between
      occurrences of `delim`; each non-empty item is appended to `elems`. */
  method SplitInto(s: string, delim: char, elems: seq<string>) returns (out: seq<string>)
    ensures out == elems + Tokens(s, {delim})
  {
    out := elems;
    var pos := 0;
    while pos < |s|
      invariant 0 <= pos <= |s|
      invariant elems + Tokens(s, {delim}) == out + Tokens(s[pos..], {delim})
    {
      // one std::getline call: the item runs up to the next delim or the end
      var j := pos;
      while j < |s| && s[j] != delim
        invariant pos <= j <= |s|
        invariant forall k :: pos <= k < j ==> s[k] != delim
      {
        j := j + 1;
      }
      var item := s[pos..j];
      TokensAt(s, {delim}, pos, j);
      if item != [] {
        out := out + [item];
      }
      pos := if j < |s| then j + 1 else j;
    }
    assert s[pos..] == [];
  }

  /** `split(s, delim)`: the same items, collected into a fresh list. */
  method Split(s: string, delim: char) returns (elems: seq<string>)
    ensures elems == Tokens(s, {delim})
  {
    elems := SplitInto(s, delim, []);
  }

  /** `split(s, delims, elems)` through `std::strtok`: `s` is copied into a
      fixed buffer of `maxLine` characters and terminated by NUL, so it must
      be shorter than the buffer; `strtok` then skips delimiters and returns
      each maximal run of other characters before the first NUL. */
  method SplitAnyInto(s: string, delims: set<char>, elems: seq<string>, maxLine: nat)
    returns (out: seq<string>)
    requires |s| < maxLine
    ensures out == elems + Tokens(CString(s), delims)
  {
    out := StrtokAll(CString(s), delims, elems);
  }

  /** The `strtok` loop over the NUL-terminated copy `c`: each call skips
      delimiters and returns the following run of other characters. */
  method StrtokAll(c: string, delims: set<char>, elems: seq<string>) returns (out: seq<string>)
    ensures out == elems + Tokens(c, delims)
  {
    out := elems;
    // the first strtok call skips leading delimiters
    assert c[0..] == c;
    var pos := SkipDelims(c, delims, 0);
    while pos < |c|
      invariant 0 <= pos <= |c|
      invariant pos < |c| ==> c[pos] !in delims
      invariant elems + Tokens(c, delims) == out + Tokens(c[pos..], delims)
    {
      var j := RunFrom(c, delims, pos);
      var next := if j < |c| then j + 1 else j;
      TokenThenRest(c, delims, pos, j);
      assert out + Tokens(c[pos..], delims) == (out + [c[pos..j]]) + Tokens(c[next..], delims);
      out := out + [c[pos..j]];
      // the next strtok call skips the delimiters that follow
      pos := SkipDelims(c, delims, next);
    }
    assert c[pos..] == [];
  }

  /** The end of the token `strtok` returns from `pos`: the first delimiter
      or the end of the string. */
  method RunFrom(c: string, delims: set<char>, pos: nat) returns (j: nat)
    requires pos <= |c|
    ensures pos <= j <= |c| && (j == |c| || c[j] in delims)
    ensures forall k :: pos <= k < j ==> c[k] !in delims
  {
    j := pos;
    while j < |c| && c[j] !in delims
      invariant pos <= j <= |c|
      invariant forall k :: pos <= k < j ==> c[k] !in delims
    {
      j := j + 1;
    }
  }

  /** From a non-delimiter, the tokens are the run up to the next delimiter
      followed by the tokens after that delimiter. */
  lemma TokenThenRest(c: string, delims: set<char>, pos: nat, j: nat)
    requires pos <= j <= |c| && pos < |c| && c[pos] !in delims
    requires forall k :: pos <= k < j ==> c[k] !in delims
    requires j == |c| || c[j] in delims
    ensures Tokens(c[pos..], delims) == [c[pos..j]] + Tokens(c[if j < |c| then j + 1 else j..], delims)
  {
    TokensAt(c, delims, pos, j);
    if j == |c| {
      assert c[j..] == [];
    }
  }

  /** The delimiters `strtok` skips before it returns a token. */
  method SkipDelims(c: string, delims: set<char>, from: nat) returns (pos: nat)
    requires from <= |c|
    ensures from <= pos <= |c| && (pos < |c| ==> c[pos] !in delims)
    ensures Tokens(c[pos..], delims) == Tokens(c[from..], delims)
  {
    pos := from;
    while pos < |c| && c[pos] in delims
      invariant from <= pos <= |c|
      invariant Tokens(c[pos..], delims) == Tokens(c[from..], delims)
    {
      SkipOne(c, delims, pos);
      pos := pos + 1;
    }
  }

  /** A delimiter before a token is skipped without producing anything. */
  lemma SkipOne(c: string, delims: set<char>, pos: nat)
    requires pos < |c| && c[pos] in delims
    ensures Tokens(c[pos..], delims) == Tokens(c[pos + 1..], delims)
  {
    var t := c[pos..];
    assert t[0] in delims && t[1..] == c[pos + 1..];
  }

  /** `split(s, delims)`: the same tokens, collected into a fresh list. */
  method SplitAny(s: string, delims: set<char>, maxLine: nat) returns (elems: seq<string>)
    requires |s| < maxLine
    ensures elems == Tokens(CString(s), delims)
  {
    elems := SplitAnyInto(s, delims, [], maxLine);
  }
}
