/**
 * The behaviour of Java's `String.split(" ")` on strings: the string is cut
 * at every single space, and empty fields at the end are dropped, except
 * that a string with no space at all comes back whole as the only field.
 */
module JavaText {

  /** The fields of `s` between single spaces, nothing dropped. */
  function Fields(s: string): (r: seq<string>)
    ensures |r| >= 1
    ensures forall i :: 0 <= i < |r| ==> ' ' !in r[i]
  {
    if s == [] then [""]
    else if s[0] == ' ' then [""] + Fields(s[1..])
    else
      var rest := Fields(s[1..]);
      [[s[0]] + rest[0]] + rest[1..]
  }

  /** The fields joined back with single spaces between them. */
  function Join(parts: seq<string>): (s: string)
    requires |parts| >= 1
  {
    if |parts| == 1 then parts[0] else parts[0] + " " + Join(parts[1..])
  }

  /** The longest prefix of `parts` that does not end in an empty field. */
  function DropTrailingEmpty(parts: seq<string>): (r: seq<string>)
    ensures r <= parts
    ensures r == [] || r[|r| - 1] != ""
    ensures forall i :: |r| <= i < |parts| ==> parts[i] == ""
  {
    if parts == [] then []
    else if parts[|parts| - 1] == "" then DropTrailingEmpty(parts[..|parts| - 1])
    else parts
  }

  /** `s.split(" ")` in Java. */
  function Split(s: string): (r: seq<string>)
    ensures forall i :: 0 <= i < |r| ==> ' ' !in r[i]
    ensures ' ' !in s ==> r == [s]
  {
    if ' ' !in s then [s] else DropTrailingEmpty(Fields(s))
  }

  /** A word with no space, followed by anything: the word is the head of the first field. */
  lemma {:induction false} FieldsOfPrefix(a: string, b: string)
    requires ' ' !in a
    ensures Fields(a + b) == [a + Fields(b)[0]] + Fields(b)[1..]
  {
    if a != [] {
      assert (a + b)[1..] == a[1..] + b;
      assert a[0] != ' ';
      FieldsOfPrefix(a[1..], b);
      assert [a[0]] + (a[1..] + Fields(b)[0]) == a + Fields(b)[0];
    } else {
      assert a + b == b;
      assert a + Fields(b)[0] == Fields(b)[0];
      assert Fields(b) == [Fields(b)[0]] + Fields(b)[1..];
    }
  }

  /** A leading space closes an empty first field. */
  lemma FieldsAfterSpace(t: string)
    ensures Fields(" " + t) == [""] + Fields(t)
  {
    assert (" " + t)[1..] == t;
  }

  /** Cutting at the spaces undoes joining with spaces. */
  lemma {:induction false} FieldsOfJoin(parts: seq<string>)
    requires |parts| >= 1
    requires forall i :: 0 <= i < |parts| ==> ' ' !in parts[i]
    ensures Fields(Join(parts)) == parts
  {
    if |parts| == 1 {
      FieldsOfPrefix(parts[0], "");
      assert parts[0] + "" == parts[0];
    } else {
      var tail := Join(parts[1..]);
      FieldsOfJoin(parts[1..]);
      assert parts[0] + " " + tail == parts[0] + (" " + tail);
      FieldsOfPrefix(parts[0], " " + tail);
      FieldsAfterSpace(tail);
      assert parts[0] + "" == parts[0];
    }
  }

  /** Joining the fields of `s` with spaces gives back `s`. */
  lemma {:induction false} JoinFields(s: string)
    ensures Join(Fields(s)) == s
  {
    if s == [] {
    } else if s[0] == ' ' {
      JoinFields(s[1..]);
      assert Fields(s) == [""] + Fields(s[1..]);
      assert s == " " + s[1..];
    } else {
      var rest := Fields(s[1..]);
      JoinFields(s[1..]);
      var f := Fields(s);
      assert f == [[s[0]] + rest[0]] + rest[1..];
      if |rest| == 1 {
        assert s == [s[0]] + s[1..];
      } else {
        assert f[1..] == rest[1..];
        assert Join(rest) == rest[0] + " " + Join(rest[1..]);
        assert s == [s[0]] + s[1..];
      }
    }
  }

  /** Splitting two or more words joined by spaces returns the words without the empty ones at the end. */
  lemma SplitOfJoinWhole(parts: seq<string>)
    requires forall i :: 0 <= i < |parts| ==> ' ' !in parts[i]
    requires |parts| >= 2
    ensures Split(Join(parts)) == DropTrailingEmpty(parts)
  {
    var s := Join(parts);
    FieldsOfJoin(parts);
    assert s == parts[0] + " " + Join(parts[1..]);
    assert s[|parts[0]|] == ' ';
  }

  /**
   * In particular the leading words up to a non-empty `k`th one come back
   * unchanged, whatever follows.
   */
  lemma SplitOfJoin(parts: seq<string>, k: nat)
    requires k < |parts|
    requires forall i :: 0 <= i < |parts| ==> ' ' !in parts[i]
    requires parts[k] != ""
    requires |parts| >= 2
    ensures Split(Join(parts)) == DropTrailingEmpty(parts)
    ensures |Split(Join(parts))| > k
    ensures Split(Join(parts))[..k + 1] == parts[..k + 1]
  {
    SplitOfJoinWhole(parts);
    var r := DropTrailingEmpty(parts);
    assert |r| > k;
    assert r[..k + 1] == parts[..k + 1];
  }

  /** Two words and any more, joined by spaces: splitting gives back the first two when the second is not empty. */
  lemma SplitLeadingFields(a: string, b: string, more: seq<string>)
    requires ' ' !in a && ' ' !in b && b != ""
    requires forall i :: 0 <= i < |more| ==> ' ' !in more[i]
    ensures |Split(Join([a, b] + more))| >= 2
    ensures Split(Join([a, b] + more))[0] == a && Split(Join([a, b] + more))[1] == b
  {
    var parts := [a, b] + more;
    assert forall i :: 0 <= i < |parts| ==> ' ' !in parts[i];
    SplitOfJoin(parts, 1);
    assert Split(Join(parts))[..2] == parts[..2];
  }

  /** A string of spaces only is cut into empty fields alone. */
  lemma {:induction false} FieldsOfSpaces(s: string)
    requires forall i :: 0 <= i < |s| ==> s[i] == ' '
    ensures forall i :: 0 <= i < |Fields(s)| ==> Fields(s)[i] == ""
  {
    if s != [] {
      FieldsOfSpaces(s[1..]);
    }
  }

  /** Splitting a non-empty string of spaces only gives no token at all. */
  lemma SplitOfSpaces(s: string)
    requires s != [] && forall i :: 0 <= i < |s| ==> s[i] == ' '
    ensures Split(s) == []
  {
    assert s[0] == ' ';
    FieldsOfSpaces(s);
  }
}
