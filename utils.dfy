/**
 * `camel_to_snake` from venclient/utils.py: two `re.sub` passes followed by `str.lower()`.
 * Each pass is modelled as Python's regex substitution behaves: scan from the left, at the
 * first position where the pattern matches replace that match, continue after it
 * (matches never overlap), and copy unmatched characters unchanged.
 */
module Utils {
  import opened Ascii

  /** End of the longest run of `[a-z]` starting at position `i` (the greedy `[a-z]+`). */
  function LowerRunEnd(s: string, i: nat): (j: nat)
    requires i <= |s|
    ensures i <= j <= |s|
    ensures forall k :: i <= k < j ==> IsLower(s[k])
    ensures j < |s| ==> !IsLower(s[j])
    decreases |s| - i
  {
    if i < |s| && IsLower(s[i]) then LowerRunEnd(s, i + 1) else i
  }

  /** The pattern `(.)([A-Z][a-z]+)` matches at position `i` (`.` excludes a line feed). */
  predicate FirstMatch(s: string, i: nat) {
    i + 2 < |s| && s[i] != '\n' && IsUpper(s[i + 1]) && IsLower(s[i + 2])
  }

  /** The result of `re.sub('(.)([A-Z][a-z]+)', r'\1_\2', s)` for the part of `s` from position `i`. */
  function FirstPassFrom(s: string, i: nat): string
    requires i <= |s|
    decreases |s| - i
  {
    if i == |s| then []
    else if FirstMatch(s, i) then
      var j := LowerRunEnd(s, i + 2);
      [s[i], '_'] + s[i + 1..j] + FirstPassFrom(s, j)
    else [s[i]] + FirstPassFrom(s, i + 1)
  }

  /** `re.sub('(.)([A-Z][a-z]+)', r'\1_\2', s)`. */
  function FirstPass(s: string): string {
    FirstPassFrom(s, 0)
  }

  /** The pattern `([a-z0-9])([A-Z])` matches at position `i`. */
  predicate SecondMatch(s: string, i: nat) {
    i + 1 < |s| && (IsLower(s[i]) || IsDigit(s[i])) && IsUpper(s[i + 1])
  }

  /** The result of `re.sub('([a-z0-9])([A-Z])', r'\1_\2', s)` for the part of `s` from position `i`. */
  function SecondPassFrom(s: string, i: nat): string
    requires i <= |s|
    decreases |s| - i
  {
    if i == |s| then []
    else if SecondMatch(s, i) then [s[i], '_', s[i + 1]] + SecondPassFrom(s, i + 2)
    else [s[i]] + SecondPassFrom(s, i + 1)
  }

  /** `re.sub('([a-z0-9])([A-Z])', r'\1_\2', s)`. */
  function SecondPass(s: string): string {
    SecondPassFrom(s, 0)
  }

  /** `camel_to_snake(name)`. */
  function CamelToSnake(name: string): (r: string)
    ensures NoUpper(r)
  {
    LowerHasNoUpper(SecondPass(FirstPass(name)));
    Lower(SecondPass(FirstPass(name)))
  }

  /** `t` is `s` with `'_'` characters inserted: deleting the inserted ones gives back `s`. */
  predicate Inserted(s: string, t: string)
    decreases |t|
  {
    if t == [] then s == []
    else
      (t[0] == '_' && Inserted(s, t[1..]))
      || (s != [] && s[0] == t[0] && Inserted(s[1..], t[1..]))
  }

  lemma {:induction false} InsertedRefl(s: string)
    ensures Inserted(s, s)
    decreases |s|
  {
    if s != [] { InsertedRefl(s[1..]); }
  }

  lemma {:induction false} InsertedConcat(a: string, b: string, c: string, d: string)
    requires Inserted(a, b) && Inserted(c, d)
    ensures Inserted(a + c, b + d)
    decreases |b|
  {
    if b == [] {
      assert a + c == c && b + d == d;
    } else if b[0] == '_' && Inserted(a, b[1..]) {
      InsertedConcat(a, b[1..], c, d);
      assert (b + d)[1..] == b[1..] + d;
    } else {
      InsertedConcat(a[1..], b[1..], c, d);
      assert (a + c)[1..] == a[1..] + c;
      assert (b + d)[1..] == b[1..] + d;
    }
  }

  /** Inserting underscores into a string that already had underscores inserted is one insertion. */
  lemma {:induction false} InsertedTrans(a: string, b: string, c: string)
    requires Inserted(a, b) && Inserted(b, c)
    ensures Inserted(a, c)
    decreases |c|
  {
    if c == [] {
    } else if c[0] == '_' && Inserted(b, c[1..]) {
      InsertedTrans(a, b, c[1..]);
    } else if b[0] == '_' && Inserted(a, b[1..]) {
      InsertedTrans(a, b[1..], c[1..]);
    } else {
      InsertedTrans(a[1..], b[1..], c[1..]);
    }
  }

  lemma {:induction false} InsertedLength(s: string, t: string)
    requires Inserted(s, t)
    ensures |t| >= |s|
    decreases |t|
  {
    if t != [] {
      if t[0] == '_' && Inserted(s, t[1..]) {
        InsertedLength(s, t[1..]);
      } else {
        InsertedLength(s[1..], t[1..]);
      }
    }
  }

  /** Lower-casing both sides keeps the inserted underscores. */
  lemma {:induction false} InsertedLower(s: string, t: string)
    requires Inserted(s, t)
    ensures Inserted(Lower(s), Lower(t))
    decreases |t|
  {
    if t != [] {
      assert Lower(t)[1..] == Lower(t[1..]);
      if t[0] == '_' && Inserted(s, t[1..]) {
        InsertedLower(s, t[1..]);
      } else {
        assert Lower(s)[1..] == Lower(s[1..]);
        InsertedLower(s[1..], t[1..]);
      }
    }
  }

  /** From any position, the first pass only inserts underscores. */
  lemma {:induction false} FirstPassInserts(s: string, i: nat)
    requires i <= |s|
    ensures Inserted(s[i..], FirstPassFrom(s, i))
    decreases |s| - i
  {
    if i == |s| {
    } else if FirstMatch(s, i) {
      var j := LowerRunEnd(s, i + 2);
      FirstPassInserts(s, j);
      InsertedRefl(s[i + 1..j]);
      var head := [s[i], '_'] + s[i + 1..j];
      assert Inserted(s[i..j], head) by {
        assert s[i..j][1..] == s[i + 1..j];
        assert head[1..] == ['_'] + s[i + 1..j];
        assert head[1..][1..] == s[i + 1..j];
      }
      InsertedConcat(s[i..j], head, s[j..], FirstPassFrom(s, j));
      assert s[i..j] + s[j..] == s[i..];
    } else {
      FirstPassInserts(s, i + 1);
      InsertedConcat([s[i]], [s[i]], s[i + 1..], FirstPassFrom(s, i + 1));
      assert [s[i]] + s[i + 1..] == s[i..];
    }
  }

  /** From any position, the second pass only inserts underscores. */
  lemma {:induction false} SecondPassInserts(s: string, i: nat)
    requires i <= |s|
    ensures Inserted(s[i..], SecondPassFrom(s, i))
    decreases |s| - i
  {
    if i == |s| {
    } else if SecondMatch(s, i) {
      SecondPassInserts(s, i + 2);
      var head := [s[i], '_', s[i + 1]];
      assert Inserted(s[i..i + 2], head) by {
        assert head[1..] == ['_', s[i + 1]];
        assert head[1..][1..] == [s[i + 1]];
        assert s[i..i + 2][1..] == [s[i + 1]];
        InsertedRefl([s[i + 1]]);
      }
      InsertedConcat(s[i..i + 2], head, s[i + 2..], SecondPassFrom(s, i + 2));
      assert s[i..i + 2] + s[i + 2..] == s[i..];
    } else {
      SecondPassInserts(s, i + 1);
      InsertedConcat([s[i]], [s[i]], s[i + 1..], SecondPassFrom(s, i + 1));
      assert [s[i]] + s[i + 1..] == s[i..];
    }
  }

  /**
   * The output of `camel_to_snake` is the lower-cased input with underscores inserted,
   * so it is never shorter than the input.
   */
  lemma CamelToSnakeInserts(name: string)
    ensures Inserted(Lower(name), CamelToSnake(name))
    ensures |CamelToSnake(name)| >= |name|
  {
    FirstPassInserts(name, 0);
    SecondPassInserts(FirstPass(name), 0);
    InsertedTrans(name, FirstPass(name), SecondPass(FirstPass(name)));
    InsertedLower(name, SecondPass(FirstPass(name)));
    InsertedLength(Lower(name), CamelToSnake(name));
  }

  lemma {:induction false} FirstPassNoUpper(s: string, i: nat)
    requires NoUpper(s) && i <= |s|
    ensures FirstPassFrom(s, i) == s[i..]
    decreases |s| - i
  {
    if i < |s| {
      FirstPassNoUpper(s, i + 1);
      assert [s[i]] + s[i + 1..] == s[i..];
    }
  }

  lemma {:induction false} SecondPassNoUpper(s: string, i: nat)
    requires NoUpper(s) && i <= |s|
    ensures SecondPassFrom(s, i) == s[i..]
    decreases |s| - i
  {
    if i < |s| {
      SecondPassNoUpper(s, i + 1);
      assert [s[i]] + s[i + 1..] == s[i..];
    }
  }

  /** A name without upper-case letters is already snake case and comes back unchanged. */
  lemma CamelToSnakeOfSnake(name: string)
    requires NoUpper(name)
    ensures CamelToSnake(name) == name
  {
    FirstPassNoUpper(name, 0);
    SecondPassNoUpper(name, 0);
    LowerOfNoUpper(name);
  }

  /** Applying `camel_to_snake` twice is the same as applying it once. */
  lemma CamelToSnakeIdempotent(name: string)
    ensures CamelToSnake(CamelToSnake(name)) == CamelToSnake(name)
  {
    CamelToSnakeOfSnake(CamelToSnake(name));
  }

  /** No `[a-z0-9]` character is directly followed by an `[A-Z]` letter. */
  predicate NoHump(s: string) {
    forall i :: 0 <= i < |s| ==> !SecondMatch(s, i)
  }

  /** After the second pass, scanning from any position, no lower-case letter or digit is
      directly followed by a capital: the second pattern no longer matches anywhere. */
  lemma {:induction false} SecondPassNoHump(s: string, i: nat)
    requires i <= |s|
    ensures NoHump(SecondPassFrom(s, i))
    ensures i < |s| ==> SecondPassFrom(s, i) != [] && SecondPassFrom(s, i)[0] == s[i]
    decreases |s| - i
  {
    if i == |s| {
    } else if SecondMatch(s, i) {
      SecondPassNoHump(s, i + 2);
      var r := SecondPassFrom(s, i);
      var rest := SecondPassFrom(s, i + 2);
      forall k | 0 <= k < |r| ensures !SecondMatch(r, k) {
        if k >= 3 {
          assert !SecondMatch(rest, k - 3);
        }
      }
    } else {
      SecondPassNoHump(s, i + 1);
      var r := SecondPassFrom(s, i);
      var rest := SecondPassFrom(s, i + 1);
      forall k | 0 <= k < |r| ensures !SecondMatch(r, k) {
        if k >= 1 {
          assert !SecondMatch(rest, k - 1);
        }
      }
    }
  }

  /** Putting a character in front of the slice that follows it extends the slice by one. */
  lemma ConsSlice(s: string, i: nat, k: nat, t: string)
    requires i < k <= |s|
    ensures [s[i]] + (s[i + 1..k] + t) == s[i..k] + t
  {
    assert s[i..k] == [s[i]] + s[i + 1..k];
  }

  /** An unmatched character is copied. */
  lemma FirstPassSkip(s: string, i: nat)
    requires i < |s| && !FirstMatch(s, i)
    ensures FirstPassFrom(s, i) == [s[i]] + FirstPassFrom(s, i + 1)
  {
  }

  /** Where the first pattern matches nowhere in `i..k`, that stretch is copied unchanged. */
  lemma {:induction false} FirstPassCopies(s: string, i: nat, k: nat)
    requires i <= k <= |s| && forall p :: i <= p < k ==> !FirstMatch(s, p)
    ensures FirstPassFrom(s, i) == s[i..k] + FirstPassFrom(s, k)
    decreases k - i
  {
    if i < k {
      FirstPassSkip(s, i);
      FirstPassCopies(s, i + 1, k);
      ConsSlice(s, i, k, FirstPassFrom(s, k));
    }
  }

  /** An unmatched character is copied. */
  lemma SecondPassSkip(s: string, i: nat)
    requires i < |s| && !SecondMatch(s, i)
    ensures SecondPassFrom(s, i) == [s[i]] + SecondPassFrom(s, i + 1)
  {
  }

  /** Where the second pattern matches nowhere in `i..k`, that stretch is copied unchanged. */
  lemma {:induction false} SecondPassCopies(s: string, i: nat, k: nat)
    requires i <= k <= |s| && forall p :: i <= p < k ==> !SecondMatch(s, p)
    ensures SecondPassFrom(s, i) == s[i..k] + SecondPassFrom(s, k)
    decreases k - i
  {
    if i < k {
      SecondPassSkip(s, i);
      SecondPassCopies(s, i + 1, k);
      ConsSlice(s, i, k, SecondPassFrom(s, k));
    }
  }

  lemma FirstPassMeterPointId()
    ensures FirstPass("meterPointId") == "meter_PointId"
  {
    var s := "meterPointId";
    assert !FirstMatch(s, 10) && !FirstMatch(s, 11);
    FirstPassCopies(s, 10, 12);
    assert LowerRunEnd(s, 6) == 10 by {
      assert LowerRunEnd(s, 10) == 10;
      assert LowerRunEnd(s, 9) == LowerRunEnd(s, 10);
      assert LowerRunEnd(s, 8) == LowerRunEnd(s, 9);
      assert LowerRunEnd(s, 7) == LowerRunEnd(s, 8);
    }
    assert FirstMatch(s, 4);
    assert FirstPassFrom(s, 4) == [s[4], '_'] + s[5..10] + s[10..12];
    assert forall p :: 0 <= p < 4 ==> !FirstMatch(s, p);
    FirstPassCopies(s, 0, 4);
  }

  lemma SecondPassMeterPointId()
    ensures SecondPass("meter_PointId") == "meter_Point_Id"
  {
    var s := "meter_PointId";
    assert SecondMatch(s, 10) && !SecondMatch(s, 12);
    assert SecondPassFrom(s, 10) == [s[10], '_', s[11]] + s[12..13];
    assert forall p :: 0 <= p < 10 ==> !SecondMatch(s, p);
    SecondPassCopies(s, 0, 10);
  }

  /** The field name `meterPointId` becomes `meter_point_id`. */
  lemma ExampleMeterPointId()
    ensures CamelToSnake("meterPointId") == "meter_point_id"
  {
    FirstPassMeterPointId();
    SecondPassMeterPointId();
    assert Lower("meter_Point_Id") == "meter_point_id";
  }

  lemma FirstPassResourceId()
    ensures FirstPass("resourceID") == "resourceID"
  {
    var s := "resourceID";
    assert forall p :: 0 <= p < 10 ==> !FirstMatch(s, p);
    FirstPassCopies(s, 0, 10);
  }

  lemma SecondPassResourceId()
    ensures SecondPass("resourceID") == "resource_ID"
  {
    var s := "resourceID";
    assert SecondMatch(s, 7) && !SecondMatch(s, 9);
    assert SecondPassFrom(s, 7) == [s[7], '_', s[8]] + s[9..10];
    assert forall p :: 0 <= p < 7 ==> !SecondMatch(s, p);
    SecondPassCopies(s, 0, 7);
  }

  /** The field name `resourceID` becomes `resource_id`: a trailing acronym stays one word. */
  lemma ExampleResourceId()
    ensures CamelToSnake("resourceID") == "resource_id"
  {
    FirstPassResourceId();
    SecondPassResourceId();
  }
}
