/**
 * `Card.get_tags_list` (core/models.py): the tag string is split on commas,
 * each segment is stripped of surrounding whitespace, and empty results are
 * dropped.
 */
module Tags {

  /** The characters Python's `str.strip()` removes (those for which `str.isspace()` holds). */
  predicate IsSpace(c: char) {
    var n := c as int;
    || (0x09 <= n <= 0x0D) || (0x1C <= n <= 0x20)
    || n == 0x85 || n == 0xA0 || n == 0x1680
    || (0x2000 <= n <= 0x200A)
    || n == 0x2028 || n == 0x2029 || n == 0x202F || n == 0x205F || n == 0x3000
  }

  predicate AllSpace(s: string) {
    forall i :: 0 <= i < |s| ==> IsSpace(s[i])
  }

  /** Neither end of `s` is whitespace. */
  predicate IsStripped(s: string) {
    s != [] ==> !IsSpace(s[0]) && !IsSpace(s[|s| - 1])
  }

  function CountCommas(s: string): nat {
    if s == [] then 0 else (if s[0] == ',' then 1 else 0) + CountCommas(s[1..])
  }

  // ---------------------------------------------------------------------------
  // str.strip()

  /** The number of whitespace characters at the front of `s`. */
  function LeadingSpace(s: string): (n: nat)
    ensures n <= |s|
    ensures forall i :: 0 <= i < n ==> IsSpace(s[i])
    ensures n < |s| ==> !IsSpace(s[n])
  {
    if s == [] || !IsSpace(s[0]) then 0 else 1 + LeadingSpace(s[1..])
  }

  /** The length of `s` without its trailing whitespace. */
  function TrailingStart(s: string): (n: nat)
    ensures n <= |s|
    ensures forall i :: n <= i < |s| ==> IsSpace(s[i])
    ensures n > 0 ==> !IsSpace(s[n - 1])
  {
    if s == [] || !IsSpace(s[|s| - 1]) then |s| else TrailingStart(s[..|s| - 1])
  }

  /**
   * `str.strip()`: `s` with its leading and trailing whitespace removed, that
   * is, a slice of `s` with only whitespace around it and none at its ends.
   */
  function Strip(s: string): (r: string)
    ensures exists lo, hi :: 0 <= lo <= hi <= |s| && r == s[lo..hi] && AllSpace(s[..lo]) && AllSpace(s[hi..])
    ensures IsStripped(r)
    ensures r == [] <==> AllSpace(s)
    ensures |r| <= |s|
  {
    var lo := LeadingSpace(s);
    var hi := TrailingStart(s);
    assert AllSpace(s[..lo]);
    if lo >= hi then
      assert AllSpace(s) by {
        forall i | 0 <= i < |s| ensures IsSpace(s[i]) {
        }
      }
      assert s[lo..lo] == [] && AllSpace(s[lo..]);
      []
    else
      assert !IsSpace(s[lo]);
      assert AllSpace(s[hi..]);
      s[lo..hi]
  }

  /** Any slice with only whitespace around it and none at its ends is the stripped string. */
  lemma StripUnique(s: string, lo: int, hi: int)
    requires 0 <= lo < hi <= |s|
    requires AllSpace(s[..lo]) && AllSpace(s[hi..])
    requires IsStripped(s[lo..hi])
    ensures Strip(s) == s[lo..hi]
  {
    assert !IsSpace(s[lo]) && !IsSpace(s[hi - 1]);
    var a, b := LeadingSpace(s), TrailingStart(s);
    assert forall i :: 0 <= i < lo ==> IsSpace(s[..lo][i]);
    assert forall i :: hi <= i < |s| ==> s[i] == s[hi..][i - hi] && IsSpace(s[i]);
    assert a == lo;
    assert b == hi;
  }

  // ---------------------------------------------------------------------------
  // str.split(',')

  /** `str.split(',')`: the comma-separated segments, always at least one. */
  function Split(s: string): (r: seq<string>)
    ensures |r| == CountCommas(s) + 1
    ensures forall i :: 0 <= i < |r| ==> ',' !in r[i]
  {
    if s == [] then [[]]
    else
      var rest := Split(s[1..]);
      if s[0] == ',' then [[]] + rest
      else [[s[0]] + rest[0]] + rest[1..]
  }

  /** `','.join(parts)`: the inverse of `Split`. */
  function Join(parts: seq<string>): string {
    if parts == [] then []
    else if |parts| == 1 then parts[0]
    else parts[0] + [','] + Join(parts[1..])
  }

  /** Splitting and re-joining gives back the original string. */
  lemma {:induction false} JoinSplit(s: string)
    ensures Join(Split(s)) == s
  {
    if s != [] {
      var rest := Split(s[1..]);
      JoinSplit(s[1..]);
      if s[0] == ',' {
        assert Split(s) == [[]] + rest;
        assert Join(Split(s)) == [] + [','] + Join(rest);
      } else {
        if |rest| == 1 {
          assert Split(s) == [[s[0]] + rest[0]];
        } else {
          assert Split(s)[1..] == rest[1..];
          assert Join(Split(s)) == [s[0]] + rest[0] + [','] + Join(rest[1..]);
        }
      }
    }
  }

  /** A comma-free segment followed by a comma and more text splits at that comma. */
  lemma {:induction false} SplitAppend(a: string, b: string)
    requires ',' !in a
    ensures Split(a + [','] + b) == [a] + Split(b)
    decreases |a|
  {
    if a == [] {
      assert a + [','] + b == [','] + b;
      assert ([','] + b)[1..] == b;
    } else {
      assert (a + [','] + b)[1..] == a[1..] + [','] + b;
      assert ',' !in a[1..];
      SplitAppend(a[1..], b);
      assert [a[0]] + a[1..] == a;
    }
  }

  /** A comma-free string is a single segment. */
  lemma {:induction false} SplitNoComma(a: string)
    requires ',' !in a
    ensures Split(a) == [a]
    decreases |a|
  {
    if a != [] {
      assert ',' !in a[1..];
      SplitNoComma(a[1..]);
      assert [a[0]] + a[1..] == a;
    }
  }

  /** Joining comma-free segments and splitting again gives back the segments. */
  lemma {:induction false} SplitJoin(parts: seq<string>)
    requires |parts| >= 1
    requires forall i :: 0 <= i < |parts| ==> ',' !in parts[i]
    ensures Split(Join(parts)) == parts
    decreases |parts|
  {
    if |parts| == 1 {
      SplitNoComma(parts[0]);
    } else {
      SplitJoin(parts[1..]);
      SplitAppend(parts[0], Join(parts[1..]));
      assert [parts[0]] + parts[1..] == parts;
    }
  }

  // ---------------------------------------------------------------------------
  // get_tags_list

  /** The tag a single segment contributes: its stripped form, unless that is empty. */
  function StripHead(segment: string): (r: seq<string>)
    ensures |r| <= 1
    ensures forall i :: 0 <= i < |r| ==> r[i] != [] && IsStripped(r[i])
  {
    var t := Strip(segment);
    if t == [] then [] else [t]
  }

  /** The non-empty stripped forms of `segments`, in order. */
  function NonEmptyStripped(segments: seq<string>): (r: seq<string>)
    ensures |r| <= |segments|
    ensures forall i :: 0 <= i < |r| ==> r[i] != [] && IsStripped(r[i])
  {
    if segments == [] then []
    else StripHead(segments[0]) + NonEmptyStripped(segments[1..])
  }

  /** `Card.get_tags_list` on the card's `tags` string. */
  function TagsList(tags: string): (r: seq<string>)
    ensures forall i :: 0 <= i < |r| ==> r[i] != []
    ensures forall i :: 0 <= i < |r| ==> IsStripped(r[i])
    ensures |r| <= CountCommas(tags) + 1
  {
    NonEmptyStripped(Split(tags))
  }

  lemma NonEmptyStrippedCons(x: string, rest: seq<string>)
    ensures NonEmptyStripped([x] + rest) == StripHead(x) + NonEmptyStripped(rest)
  {
    assert ([x] + rest)[1..] == rest;
  }

  lemma {:induction false} NonEmptyStrippedAppend(a: seq<string>, b: seq<string>)
    ensures NonEmptyStripped(a + b) == NonEmptyStripped(a) + NonEmptyStripped(b)
    decreases |a|
  {
    if a == [] {
      assert a + b == b;
    } else {
      var rest := a[1..];
      assert a == [a[0]] + rest;
      assert a + b == [a[0]] + (rest + b);
      NonEmptyStrippedCons(a[0], rest + b);
      NonEmptyStrippedCons(a[0], rest);
      NonEmptyStrippedAppend(rest, b);
      ConcatAssoc(StripHead(a[0]), NonEmptyStripped(rest), NonEmptyStripped(b));
    }
  }

  lemma ConcatAssoc<T>(x: seq<T>, y: seq<T>, z: seq<T>)
    ensures x + (y + z) == (x + y) + z
  {
  }

  /**
   * Order and content: the tags of `a,b` are the tags of `a` followed by the
   * tags of `b`, and a comma-free segment contributes its stripped form
   * exactly when that is non-empty.
   */
  lemma {:induction false} TagsListComma(a: string, b: string)
    requires ',' !in a
    ensures TagsList(a + [','] + b) == TagsList(a) + TagsList(b)
    ensures TagsList(a) == (if AllSpace(a) then [] else [Strip(a)])
  {
    SplitAppend(a, b);
    SplitNoComma(a);
    NonEmptyStrippedAppend([a], Split(b));
  }

  /** The tags of `','.join(parts)` are the non-empty stripped parts, in order. */
  lemma TagsListOfJoin(parts: seq<string>)
    requires |parts| >= 1
    requires forall i :: 0 <= i < |parts| ==> ',' !in parts[i]
    ensures TagsList(Join(parts)) == NonEmptyStripped(parts)
  {
    SplitJoin(parts);
  }

  /** No tags exactly when the string holds nothing but commas and whitespace. */
  lemma {:induction false} TagsListEmpty(tags: string)
    ensures TagsList(tags) == [] <==> (forall i :: 0 <= i < |tags| ==> tags[i] == ',' || IsSpace(tags[i]))
    decreases |tags|
  {
    if tags != [] {
      var rest := tags[1..];
      TagsListEmpty(rest);
      var seg := Split(rest);
      if tags[0] == ',' {
        assert Split(tags) == [[]] + seg;
        assert NonEmptyStripped(Split(tags)) == NonEmptyStripped(seg);
        TailChars(tags);
      } else {
        var first := [tags[0]] + seg[0];
        assert Split(tags) == [first] + seg[1..];
        assert seg == [seg[0]] + seg[1..];
        assert TagsList(rest) == StripHead(seg[0]) + NonEmptyStripped(seg[1..]);
        assert TagsList(tags) == StripHead(first) + NonEmptyStripped(seg[1..]);
        AllSpaceCons(tags[0], seg[0]);
        TailChars(tags);
        if IsSpace(tags[0]) {
          assert TagsList(tags) == [] <==> TagsList(rest) == [];
        } else {
          assert !AllSpace(first) by { assert first[0] == tags[0]; }
        }
      }
    }
  }

  lemma AllSpaceCons(c: char, s: string)
    ensures AllSpace([c] + s) <==> IsSpace(c) && AllSpace(s)
  {
    if IsSpace(c) && AllSpace(s) {
      forall i | 0 <= i < |[c] + s| ensures IsSpace(([c] + s)[i]) {
        if i > 0 { assert ([c] + s)[i] == s[i - 1]; }
      }
    }
    if AllSpace([c] + s) {
      assert IsSpace(([c] + s)[0]);
      forall i | 0 <= i < |s| ensures IsSpace(s[i]) {
        assert s[i] == ([c] + s)[i + 1];
      }
    }
  }

  lemma TailChars(s: string)
    requires s != []
    ensures (forall i :: 0 <= i < |s| ==> s[i] == ',' || IsSpace(s[i]))
            <==> (s[0] == ',' || IsSpace(s[0]))
                 && (forall i :: 0 <= i < |s[1..]| ==> s[1..][i] == ',' || IsSpace(s[1..][i]))
  {
    if (s[0] == ',' || IsSpace(s[0])) && (forall i :: 0 <= i < |s[1..]| ==> s[1..][i] == ',' || IsSpace(s[1..][i])) {
      forall i | 0 <= i < |s| ensures s[i] == ',' || IsSpace(s[i]) {
        if i > 0 { assert s[i] == s[1..][i - 1]; }
      }
    }
  }

  /** The default `tags = ""` has no tags. */
  lemma DefaultTagsEmpty()
    ensures TagsList("") == []
  {
  }
}
