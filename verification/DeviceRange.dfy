/**
 Printing a list of device ids as a range or a comma list, and parsing such a
 specification back.  Numbers are printed and parsed digit by digit, with the
 leniency of Python's `int`: surrounding blanks, a sign, and single underscores
 between digits.
 */
module DeviceRange {
  import opened Arithmetic

  // -------------------------------------------------------------------------
  // Numbers
  // -------------------------------------------------------------------------

  function Digit(d: nat): char
    requires d < 10
  {
    '0' + d as char
  }

  predicate IsDigit(c: char) {
    '0' <= c <= '9'
  }

  /** The decimal digits of `n`. */
  function Digits(n: nat): string {
    if n < 10 then [Digit(n)] else Digits(n / 10) + [Digit(n % 10)]
  }

  /** Python's `str`. */
  function Str(i: int): string {
    if i < 0 then "-" + Digits(-i) else Digits(i)
  }

  predicate IsSpace(c: char) {
    c == ' ' || 9 <= c as int <= 13 || 28 <= c as int <= 31
  }

  function LStrip(s: string): string {
    if s != [] && IsSpace(s[0]) then LStrip(s[1..]) else s
  }

  function RStrip(s: string): string {
    if s != [] && IsSpace(s[|s| - 1]) then RStrip(s[..|s| - 1]) else s
  }

  function Strip(s: string): string {
    RStrip(LStrip(s))
  }

  /** Digits, with single underscores between them. */
  predicate IsNumeral(s: string) {
    && s != [] && IsDigit(s[0]) && IsDigit(s[|s| - 1])
    && (forall i :: 0 <= i < |s| ==> IsDigit(s[i]) || s[i] == '_')
    && (forall i :: 0 <= i < |s| - 1 ==> !(s[i] == '_' && s[i + 1] == '_'))
  }

  function Value(s: string): nat {
    if s == [] then 0
    else
      var c := s[|s| - 1];
      if IsDigit(c) then 10 * Value(s[..|s| - 1]) + (c as int - '0' as int) else Value(s[..|s| - 1])
  }

  /** Python's `int`; `None` stands for ValueError. */
  function ToInt(s: string): Option<int> {
    var t := Strip(s);
    var signed := t != [] && (t[0] == '+' || t[0] == '-');
    var digits := if signed then t[1..] else t;
    if !IsNumeral(digits) then None
    else if signed && t[0] == '-' then Some(0 - Value(digits) as int)
    else Some(Value(digits) as int)
  }

  // -------------------------------------------------------------------------
  // Lists
  // -------------------------------------------------------------------------

  predicate Ascending(s: seq<int>) {
    forall i, k :: 0 <= i < k < |s| ==> s[i] <= s[k]
  }

  predicate StrictlyAscending(s: seq<int>) {
    forall i, k :: 0 <= i < k < |s| ==> s[i] < s[k]
  }

  /** Insert before the first larger element. */
  function Insert(s: seq<int>, x: int): (r: seq<int>)
    requires Ascending(s)
    ensures Ascending(r) && |r| == |s| + 1 && forall y :: y in r <==> y == x || y in s
  {
    if s == [] || x < s[0] then [x] + s
    else
      var rest := Insert(s[1..], x);
      assert s == [s[0]] + s[1..];
      assert forall i :: 0 <= i < |s[1..]| ==> s[0] <= s[1..][i];
      assert forall i :: 0 <= i < |rest| ==> rest[i] in rest && (rest[i] == x || rest[i] in s[1..]);
      [s[0]] + rest
  }

  lemma {:induction false} InsertStrict(s: seq<int>, x: int)
    requires StrictlyAscending(s) && x !in s
    ensures StrictlyAscending(Insert(s, x))
    decreases |s|
  {
    if s != [] && x >= s[0] {
      InsertStrict(s[1..], x);
      var rest := Insert(s[1..], x);
      forall i | 0 <= i < |rest| ensures s[0] < rest[i] {
        assert rest[i] in rest;
      }
    }
  }

  /** Python's `sorted` on a list. */
  function Sorted(s: seq<int>): (r: seq<int>)
    ensures Ascending(r) && |r| == |s| && forall y :: y in r <==> y in s
  {
    if s == [] then []
    else
      assert s == s[..|s| - 1] + [s[|s| - 1]];
      Insert(Sorted(s[..|s| - 1]), s[|s| - 1])
  }

  lemma FirstIsMember(s: seq<int>)
    requires s != []
    ensures s[0] in s
  {
  }

  /** A strictly ascending list is determined by its elements. */
  lemma {:induction false} SortedIsUnique(s: seq<int>, t: seq<int>)
    requires StrictlyAscending(s) && StrictlyAscending(t) && forall y :: y in s <==> y in t
    ensures s == t
    decreases |s|
  {
    if s == [] {
      if t != [] {
        FirstIsMember(t);
        assert false;
      }
    } else {
      FirstIsMember(s);
      FirstIsMember(t);
      assert s[0] == t[0];
      assert forall y :: y in s[1..] <==> y in s && y != s[0];
      assert forall y :: y in t[1..] <==> y in t && y != t[0];
      SortedIsUnique(s[1..], t[1..]);
      assert s == [s[0]] + s[1..] && t == [t[0]] + t[1..];
    }
  }

  // -------------------------------------------------------------------------
  // Printing
  // -------------------------------------------------------------------------

  predicate Contiguous(s: seq<int>) {
    forall i :: 0 <= i < |s| - 1 ==> s[i + 1] - s[i] == 1
  }

  function Join(parts: seq<string>): string {
    if parts == [] then ""
    else if |parts| == 1 then parts[0]
    else parts[0] + "," + Join(parts[1..])
  }

  function Strs(s: seq<int>): seq<string> {
    seq(|s|, i requires 0 <= i < |s| => Str(s[i]))
  }

  /** A range for a contiguous list, else a comma list. */
  function RangeStr(ids: seq<int>): string {
    if ids == [] then ""
    else if |ids| == 1 then Str(ids[0])
    else
      var s := Sorted(ids);
      if Contiguous(s) then Str(s[0]) + "-" + Str(s[|s| - 1]) else Join(Strs(s))
  }

  // -------------------------------------------------------------------------
  // Parsing
  // -------------------------------------------------------------------------

  /** Position of the first `c`, or the length. */
  function Find(s: string, c: char): (i: nat)
    ensures i <= |s| && (i < |s| ==> s[i] == c) && forall k :: 0 <= k < i ==> s[k] != c
  {
    if s == [] || s[0] == c then 0
    else
      assert s == [s[0]] + s[1..];
      1 + Find(s[1..], c)
  }

  /** Python's `split`: always at least one part. */
  function Split(s: string, c: char): seq<string> {
    var i := Find(s, c);
    if i == |s| then [s] else [s[..i]] + Split(s[i + 1..], c)
  }

  function Ids(first: int, last: int): (r: set<int>)
    ensures forall x :: x in r <==> first <= x <= last
    decreases last - first
  {
    if last < first then {} else Ids(first, last - 1) + {last}
  }

  /** The ids of one part between commas, already stripped and not empty. */
  function ParsePart(part: string): Option<set<int>> {
    var i := Find(part, '-');
    if i < |part| then
      var first, last := ToInt(part[..i]), ToInt(part[i + 1..]);
      if first.None? || last.None? then None else Some(Ids(first.value, last.value))
    else
      var x := ToInt(part);
      if x.None? then None else Some({x.value})
  }

  /** The ids of all parts; blank parts are skipped. */
  function ParseParts(parts: seq<string>): Option<set<int>> {
    if parts == [] then Some({})
    else
      var before := ParseParts(parts[..|parts| - 1]);
      var part := Strip(parts[|parts| - 1]);
      if before.None? || part == [] then before
      else
        var ids := ParsePart(part);
        if ids.None? then None else Some(before.value + ids.value)
  }

  /** What a specification means. */
  function Meaning(spec: string): Option<set<int>> {
    if spec == [] then Some({}) else ParseParts(Split(spec, ','))
  }

  lemma Member<T>(s: set<T>) returns (x: T)
    requires s != {}
    ensures x in s
  {
    x :| x in s;
  }

  /** Python's `sorted` on a set. */
  method SortSet(ids: set<int>) returns (r: seq<int>)
    ensures StrictlyAscending(r) && forall y :: y in r <==> y in ids
  {
    r := [];
    var rest := ids;
    while rest != {}
      invariant StrictlyAscending(r) && rest <= ids
      invariant forall y :: y in r <==> y in ids && y !in rest
      decreases |rest|
    {
      ghost var some := Member(rest);
      var x :| x in rest;
      InsertStrict(r, x);
      r := Insert(r, x);
      rest := rest - {x};
    }
  }

  /** Parses a device specification into a sorted list without duplicates. */
  method DeviceRangeToList(spec: string) returns (r: Option<seq<int>>)
    ensures Meaning(spec).None? ==> r.None?
    ensures Meaning(spec).Some? ==> r.Some? && StrictlyAscending(r.value) && forall x :: x in r.value <==> x in Meaning(spec).value
  {
    if spec == [] {
      return Some([]);
    }
    var ids := {};
    var parts := Split(spec, ',');
    var i := 0;
    while i < |parts|
      invariant 0 <= i <= |parts|
      invariant ParseParts(parts[..i]) == Some(ids)
    {
      assert parts[..i + 1][..i] == parts[..i];
      var part := Strip(parts[i]);
      if part != [] {
        var more := ParsePart(part);
        if more.None? {
          ErrorStays(parts, i + 1);
          return None;
        }
        ids := ids + more.value;
      }
      i := i + 1;
    }
    assert parts[..i] == parts;
    var sorted := SortSet(ids);
    return Some(sorted);
  }

  lemma {:induction false} ErrorStays(parts: seq<string>, k: nat)
    requires k <= |parts| && ParseParts(parts[..k]).None?
    ensures ParseParts(parts).None?
    decreases |parts|
  {
    if k == |parts| {
      assert parts[..k] == parts;
    } else {
      assert parts[..|parts| - 1][..k] == parts[..k];
      ErrorStays(parts[..|parts| - 1], k);
    }
  }

  // -------------------------------------------------------------------------
  // Numbers round trip
  // -------------------------------------------------------------------------

  ghost predicate AllDigits(s: string) {
    s != [] && forall i :: 0 <= i < |s| ==> IsDigit(s[i])
  }

  lemma {:induction false} DigitsAreDigits(n: nat)
    ensures AllDigits(Digits(n)) && Value(Digits(n)) == n
  {
    if n < 10 {
      assert Digits(n)[..0] == [];
    } else {
      DigitsAreDigits(n / 10);
      var s := Digits(n);
      assert s[..|s| - 1] == Digits(n / 10);
    }
  }

  lemma NothingToStrip(s: string)
    requires s != [] && !IsSpace(s[0]) && !IsSpace(s[|s| - 1])
    ensures Strip(s) == s
  {
  }

  lemma IntOfDigits(n: nat)
    ensures ToInt(Digits(n)) == Some(n)
  {
    DigitsAreDigits(n);
    NothingToStrip(Digits(n));
  }

  // -------------------------------------------------------------------------
  // Splitting undoes joining
  // -------------------------------------------------------------------------

  ghost predicate Free(s: string, c: char) {
    forall i :: 0 <= i < |s| ==> s[i] != c
  }

  lemma FindInFront(s: string, c: char, t: string)
    requires Free(s, c)
    ensures Find(s + [c] + t, c) == |s| && (s + [c] + t)[..|s|] == s && (s + [c] + t)[|s| + 1..] == t
  {
    assert (s + [c] + t)[|s|] == c;
    assert forall k :: 0 <= k < |s| ==> (s + [c] + t)[k] == s[k];
  }

  lemma {:induction false} SplitJoin(parts: seq<string>)
    requires parts != [] && forall i :: 0 <= i < |parts| ==> Free(parts[i], ',')
    ensures Split(Join(parts), ',') == parts
    decreases |parts|
  {
    if |parts| == 1 {
      assert Find(parts[0], ',') == |parts[0]|;
    } else {
      SplitJoin(parts[1..]);
      var rest := Join(parts[1..]);
      assert Join(parts) == parts[0] + [','] + rest;
      FindInFront(parts[0], ',', rest);
      assert Split(Join(parts), ',') == [parts[0]] + Split(rest, ',');
      assert parts == [parts[0]] + parts[1..];
    }
  }

  lemma StrFacts(x: int)
    ensures x >= 0 ==> AllDigits(Str(x)) && ToInt(Str(x)) == Some(x)
    ensures x < 0 ==> |Str(x)| >= 2 && Str(x)[0] == '-'
    ensures Str(x) != [] && Free(Str(x), ',') && !IsSpace(Str(x)[0]) && !IsSpace(Str(x)[|Str(x)| - 1])
  {
    DigitsAreDigits(if x < 0 then -x else x);
    if x >= 0 {
      IntOfDigits(x);
    }
  }

  // -------------------------------------------------------------------------
  // The round trip
  // -------------------------------------------------------------------------

  ghost predicate NonNegative(s: seq<int>) {
    forall i :: 0 <= i < |s| ==> s[i] >= 0
  }

  lemma ElemsNext(s: seq<int>)
    requires s != []
    ensures Members(s) == Members(s[..|s| - 1]) + {s[|s| - 1]}
  {
    assert s == s[..|s| - 1] + [s[|s| - 1]];
  }

  lemma NoDash(s: string)
    requires AllDigits(s)
    ensures Free(s, '-')
  {
  }

  lemma PartOfOne(x: int)
    requires x >= 0
    ensures Strip(Str(x)) == Str(x) && ParsePart(Str(x)) == Some({x})
  {
    StrFacts(x);
    NothingToStrip(Str(x));
    NoDash(Str(x));
  }

  lemma {:induction false} CommaList(s: seq<int>)
    requires NonNegative(s)
    ensures ParseParts(Strs(s)) == Some(Members(s))
    decreases |s|
  {
    if s == [] {
      assert Strs(s) == [] && Members(s) == {};
    } else {
      var n := |s| - 1;
      CommaList(s[..n]);
      assert Strs(s)[..n] == Strs(s[..n]);
      ElemsNext(s);
      PartOfOne(s[n]);
      assert Str(s[n]) != [] by {
        StrFacts(s[n]);
      }
    }
  }

  lemma OnePart(spec: string)
    requires spec != [] && Free(spec, ',') && Strip(spec) == spec
    ensures Meaning(spec) == ParsePart(spec)
  {
    assert Find(spec, ',') == |spec|;
    var parts := Split(spec, ',');
    assert parts == [spec] && ParseParts(parts[..0]) == Some({});
    assert ParsePart(spec).Some? ==> {} + ParsePart(spec).value == ParsePart(spec).value;
  }

  lemma RangePart(first: int, last: int)
    requires first >= 0 && last >= 0
    ensures Meaning(Str(first) + "-" + Str(last)) == Some(Ids(first, last))
  {
    StrFacts(first);
    StrFacts(last);
    NoDash(Str(first));
    FindInFront(Str(first), '-', Str(last));
    var spec := Str(first) + ['-'] + Str(last);
    NothingToStrip(spec);
    OnePart(spec);
  }

  lemma {:induction false} ContiguousMembers(s: seq<int>)
    requires s != [] && Contiguous(s)
    ensures Members(s) == Ids(s[0], s[|s| - 1])
    decreases |s|
  {
    var n := |s| - 1;
    if n > 0 {
      ContiguousMembers(s[..n]);
      assert s[n] - s[n - 1] == 1;
      ElemsNext(s);
      assert s[..n][n - 1] in Members(s[..n]);
      assert Members(s) == Ids(s[0], s[n]);
    } else {
      assert s == [s[0]];
      assert Members(s) == {s[0]} == Ids(s[0], s[0]);
    }
  }

  lemma CommaFree(s: seq<int>)
    ensures forall i :: 0 <= i < |s| ==> Free(Strs(s)[i], ',')
  {
    forall i | 0 <= i < |s| ensures Free(Strs(s)[i], ',') {
      StrFacts(s[i]);
    }
  }

  lemma JoinedMeaning(s: seq<int>)
    requires s != []
    ensures Meaning(Join(Strs(s))) == ParseParts(Strs(s))
  {
    CommaFree(s);
    StrFacts(s[0]);
    SplitJoin(Strs(s));
    assert Join(Strs(s)) != [];
  }

  /** Parsing what was printed gives the same ids, if none is negative. */
  lemma RoundTrip(ids: seq<int>)
    requires NonNegative(ids)
    ensures Meaning(RangeStr(ids)) == Some(Members(ids))
  {
    if ids == [] {
      assert Members(ids) == {};
    } else if |ids| == 1 {
      StrFacts(ids[0]);
      PartOfOne(ids[0]);
      OnePart(Str(ids[0]));
      assert ids == [ids[0]] && Members(ids) == {ids[0]};
    } else {
      var s := Sorted(ids);
      assert Members(s) == Members(ids);
      assert NonNegative(s) by {
        forall i | 0 <= i < |s| ensures s[i] >= 0 {
          assert s[i] in ids;
        }
      }
      if Contiguous(s) {
        RangePart(s[0], s[|s| - 1]);
        ContiguousMembers(s);
      } else {
        JoinedMeaning(s);
        CommaList(s);
      }
    }
  }

  /** A part that begins with a minus sign is an error: the start of its range is empty. */
  lemma LeadingDash(part: string)
    requires part != [] && part[0] == '-'
    ensures ParsePart(part) == None
  {
    assert Find(part, '-') == 0;
    assert part[..0] == [];
  }

  lemma NegativeFirst(s: seq<int>)
    requires s != [] && s[0] < 0
    ensures Meaning(Str(s[0])) == None && Meaning(Join(Strs(s))) == None
  {
    StrFacts(s[0]);
    NothingToStrip(Str(s[0]));
    LeadingDash(Str(s[0]));
    OnePart(Str(s[0]));
    JoinedMeaning(s);
    assert Strs(s)[..1][..0] == [];
    assert ParseParts(Strs(s)[..1]).None?;
    ErrorStays(Strs(s), 1);
  }

  lemma NegativeRange(first: int, last: int)
    requires first < 0
    ensures Meaning(Str(first) + "-" + Str(last)) == None
  {
    StrFacts(first);
    StrFacts(last);
    var spec := Str(first) + "-" + Str(last);
    NothingToStrip(spec);
    OnePart(spec);
    LeadingDash(spec);
  }

  lemma NegativeFails(ids: seq<int>, x: int)
    requires x in ids && x < 0
    ensures Meaning(RangeStr(ids)) == None
  {
    if |ids| == 1 {
      NegativeFirst(ids);
    } else {
      var s := Sorted(ids);
      assert s[0] < 0;
      NegativeFirst(s);
      NegativeRange(s[0], s[|s| - 1]);
    }
  }

  /** Printing and parsing are inverse exactly on lists of non-negative ids. */
  lemma RoundTripIff(ids: seq<int>)
    ensures Meaning(RangeStr(ids)) == Some(Members(ids)) <==> NonNegative(ids)
  {
    if i :| 0 <= i < |ids| && ids[i] < 0 {
      NegativeFails(ids, ids[i]);
    } else {
      RoundTrip(ids);
    }
  }

  /** Parsing the printed list: the distinct ids in ascending order, or an error if an id is negative. */
  method PrintAndParse(ids: seq<int>) returns (r: Option<seq<int>>)
    ensures r.Some? <==> NonNegative(ids)
    ensures r.Some? ==> StrictlyAscending(r.value) && forall x :: x in r.value <==> x in ids
    ensures r.Some? && StrictlyAscending(ids) ==> r.value == ids
  {
    r := DeviceRangeToList(RangeStr(ids));
    if i :| 0 <= i < |ids| && ids[i] < 0 {
      NegativeFails(ids, ids[i]);
    } else {
      RoundTrip(ids);
      if StrictlyAscending(ids) {
        SortedIsUnique(r.value, ids);
      }
    }
  }

  // -------------------------------------------------------------------------
  // What a specification means
  // -------------------------------------------------------------------------

  /** The part between two commas is not blank, and is neither a number nor a range. */
  predicate PartFails(part: string) {
    Strip(part) != [] && ParsePart(Strip(part)).None?
  }

  /** The part between two commas contributes `x`. */
  predicate PartHas(part: string, x: int) {
    Strip(part) != [] && ParsePart(Strip(part)).Some? && x in ParsePart(Strip(part)).value
  }

  ghost predicate SomeFails(parts: seq<string>) {
    parts != [] && (SomeFails(parts[..|parts| - 1]) || PartFails(parts[|parts| - 1]))
  }

  ghost predicate SomeHas(parts: seq<string>, x: int) {
    parts != [] && (SomeHas(parts[..|parts| - 1], x) || PartHas(parts[|parts| - 1], x))
  }

  lemma {:induction false} FailsAt(parts: seq<string>, i: nat)
    requires i < |parts| && PartFails(parts[i])
    ensures SomeFails(parts)
    decreases |parts|
  {
    if i < |parts| - 1 {
      FailsAt(parts[..|parts| - 1], i);
    }
  }

  lemma {:induction false} WhichFails(parts: seq<string>) returns (i: nat)
    requires SomeFails(parts)
    ensures i < |parts| && PartFails(parts[i])
    decreases |parts|
  {
    i := |parts| - 1;
    if !PartFails(parts[i]) {
      i := WhichFails(parts[..|parts| - 1]);
    }
  }

  lemma {:induction false} HasAt(parts: seq<string>, x: int, i: nat)
    requires i < |parts| && PartHas(parts[i], x)
    ensures SomeHas(parts, x)
    decreases |parts|
  {
    if i < |parts| - 1 {
      HasAt(parts[..|parts| - 1], x, i);
    }
  }

  lemma {:induction false} WhichHas(parts: seq<string>, x: int) returns (i: nat)
    requires SomeHas(parts, x)
    ensures i < |parts| && PartHas(parts[i], x)
    decreases |parts|
  {
    i := |parts| - 1;
    if !PartHas(parts[i], x) {
      i := WhichHas(parts[..|parts| - 1], x);
    }
  }

  lemma ParseNext(parts: seq<string>, x: int)
    requires parts != []
    ensures var n := |parts| - 1;
      && (ParseParts(parts).None? <==> ParseParts(parts[..n]).None? || PartFails(parts[n]))
      && (ParseParts(parts).Some? ==>
            (x in ParseParts(parts).value <==> x in ParseParts(parts[..n]).value || PartHas(parts[n], x)))
  {
  }

  /** Some part fails, or the result is the union of the parts. */
  lemma {:induction false} UnionOfParts(parts: seq<string>, x: int)
    ensures ParseParts(parts).None? <==> SomeFails(parts)
    ensures ParseParts(parts).Some? ==> (x in ParseParts(parts).value <==> SomeHas(parts, x))
    decreases |parts|
  {
    if parts != [] {
      UnionOfParts(parts[..|parts| - 1], x);
      ParseNext(parts, x);
    }
  }

  lemma JoinMore(first: string, rest: seq<string>)
    requires rest != []
    ensures Join([first] + rest) == first + "," + Join(rest)
  {
    assert ([first] + rest)[1..] == rest;
  }

  /** Splitting at commas loses nothing: the pieces have no comma, and joined they are the text. */
  lemma {:induction false} SplitPieces(s: string)
    ensures Split(s, ',') != [] && Join(Split(s, ',')) == s
    ensures forall i :: 0 <= i < |Split(s, ',')| ==> Free(Split(s, ',')[i], ',')
    decreases |s|
  {
    var i := Find(s, ',');
    if i < |s| {
      SplitPieces(s[i + 1..]);
      JoinMore(s[..i], Split(s[i + 1..], ','));
      assert s == s[..i] + "," + s[i + 1..];
    }
  }

  lemma FailureOfParts(parts: seq<string>)
    ensures ParseParts(parts).None? <==> exists i :: 0 <= i < |parts| && PartFails(parts[i])
  {
    UnionOfParts(parts, 0);
    if ParseParts(parts).None? {
      var i := WhichFails(parts);
    } else if i :| 0 <= i < |parts| && PartFails(parts[i]) {
      FailsAt(parts, i);
    }
  }

  lemma MembersOfParts(parts: seq<string>, x: int)
    requires ParseParts(parts).Some?
    ensures x in ParseParts(parts).value <==> exists i :: 0 <= i < |parts| && PartHas(parts[i], x)
  {
    UnionOfParts(parts, x);
    if x in ParseParts(parts).value {
      var i := WhichHas(parts, x);
    } else if i :| 0 <= i < |parts| && PartHas(parts[i], x) {
      HasAt(parts, x, i);
    }
  }

  lemma EmptyMeaning()
    ensures ParseParts(Split([], ',')) == Some({})
  {
    var parts: seq<string> := [[]];
    assert Split([], ',') == parts;
    assert Strip(parts[0]) == [] && parts[..0] == [];
    assert ParseParts(parts) == ParseParts(parts[..0]);
  }

  lemma MeaningIsParse(spec: string)
    ensures Meaning(spec) == ParseParts(Split(spec, ','))
  {
    if spec == [] {
      EmptyMeaning();
    }
  }

  /** A specification fails if and only if some part between commas that is not blank fails. */
  lemma FailsIff(spec: string)
    ensures Meaning(spec).None? <==> exists i :: 0 <= i < |Split(spec, ',')| && PartFails(Split(spec, ',')[i])
  {
    MeaningIsParse(spec);
    FailureOfParts(Split(spec, ','));
  }

  /** Otherwise it means the ids of all its parts together. */
  lemma MeansIff(spec: string, x: int)
    requires Meaning(spec).Some?
    ensures x in Meaning(spec).value <==> exists i :: 0 <= i < |Split(spec, ',')| && PartHas(Split(spec, ',')[i], x)
  {
    MeaningIsParse(spec);
    MembersOfParts(Split(spec, ','), x);
  }

  /** The blanks that Python strips. */
  const BLANKS: string := " \t\n\r\U{0b}\U{0c}\U{1c}\U{1d}\U{1e}\U{1f}"

  predicate Blank(s: string) {
    forall i :: 0 <= i < |s| ==> s[i] in BLANKS
  }

  lemma BlankIsSpace(c: char)
    ensures c in BLANKS <==> IsSpace(c)
  {
    assert BLANKS[0] == ' ' && BLANKS[1] == '\t' && BLANKS[2] == '\n' && BLANKS[3] == '\r' && BLANKS[4] as int == 11;
    assert BLANKS[5] as int == 12 && BLANKS[6] as int == 28 && BLANKS[7] as int == 29 && BLANKS[8] as int == 30;
    assert BLANKS[9] as int == 31;
  }

  lemma {:induction false} LStripPad(pad: string, s: string)
    requires Blank(pad) && (s == [] || !IsSpace(s[0]))
    ensures LStrip(pad + s) == s
    decreases |pad|
  {
    if pad == [] {
      assert pad + s == s;
    } else {
      BlankIsSpace(pad[0]);
      assert (pad + s)[1..] == pad[1..] + s;
      LStripPad(pad[1..], s);
    }
  }

  lemma {:induction false} RStripPad(s: string, pad: string)
    requires Blank(pad) && (s == [] || !IsSpace(s[|s| - 1]))
    ensures RStrip(s + pad) == s
    decreases |pad|
  {
    if pad == [] {
      assert s + pad == s;
    } else {
      BlankIsSpace(pad[|pad| - 1]);
      assert (s + pad)[..|s + pad| - 1] == s + pad[..|pad| - 1];
      RStripPad(s, pad[..|pad| - 1]);
    }
  }

  lemma StripPads(before: string, s: string, after: string)
    requires Blank(before) && Blank(after) && s != [] && !IsSpace(s[0]) && !IsSpace(s[|s| - 1])
    ensures Strip(before + s + after) == s
  {
    assert before + s + after == before + (s + after);
    LStripPad(before, s + after);
    RStripPad(s, after);
  }

  lemma StripBlank(pad: string)
    requires Blank(pad)
    ensures Strip(pad) == []
  {
    LStripPad(pad, []);
    assert pad + [] == pad;
  }

  /** `int` undoes `str`, whatever blanks are around the number. */
  lemma IntOfPadded(before: string, x: int, after: string)
    requires Blank(before) && Blank(after)
    ensures ToInt(before + Str(x) + after) == Some(x)
  {
    StrFacts(x);
    StripPads(before, Str(x), after);
    DigitsAreDigits(if x < 0 then -x else x);
    if x < 0 {
      assert Str(x)[1..] == Digits(-x);
    }
  }

  /** A part of a specification as people write them, with blanks wherever they are allowed. */
  datatype Item =
    | Gap(pad: string)
    | Single(before: string, n: nat, after: string)
    | Span(before: string, first: nat, left: string, right: string, last: int, after: string)

  function Text(item: Item): string {
    match item
    case Gap(pad) => pad
    case Single(before, n, after) => before + Str(n) + after
    case Span(before, first, left, right, last, after) => before + (Str(first) + left + "-" + (right + Str(last))) + after
  }

  predicate Padded(item: Item) {
    match item
    case Gap(pad) => Blank(pad)
    case Single(before, _, after) => Blank(before) && Blank(after)
    case Span(before, _, left, right, _, after) => Blank(before) && Blank(left) && Blank(right) && Blank(after)
  }

  /** Item `item` stands for id `x`. */
  predicate Denotes(item: Item, x: int) {
    match item
    case Gap(_) => false
    case Single(_, n, _) => x == n
    case Span(_, first, _, _, last, _) => first <= x <= last
  }

  lemma BlankFree(pad: string)
    requires Blank(pad)
    ensures Free(pad, ',') && Free(pad, '-')
  {
    forall i | 0 <= i < |pad| ensures pad[i] != ',' && pad[i] != '-' {
      BlankIsSpace(pad[i]);
    }
  }

  lemma SpanFront(first: nat, left: string)
    requires Blank(left)
    ensures Free(Str(first) + left, '-') && ToInt(Str(first) + left) == Some(first)
  {
    StrFacts(first);
    NoDash(Str(first));
    BlankFree(left);
    FreeAppend(Str(first), left, '-');
    IntOfPadded([], first, left);
    assert [] + Str(first) + left == Str(first) + left;
  }

  lemma SpanBack(right: string, last: int)
    requires Blank(right)
    ensures ToInt(right + Str(last)) == Some(last)
  {
    IntOfPadded(right, last, []);
    assert right + Str(last) + [] == right + Str(last);
  }

  lemma SpanParses(first: nat, left: string, right: string, last: int)
    requires Blank(left) && Blank(right)
    ensures ParsePart(Str(first) + left + "-" + (right + Str(last))) == Some(Ids(first, last))
  {
    SpanFront(first, left);
    SpanBack(right, last);
    FindInFront(Str(first) + left, '-', right + Str(last));
  }

  lemma SpanEnds(first: nat, left: string, right: string, last: int)
    ensures var core := Str(first) + left + "-" + (right + Str(last));
      core != [] && !IsSpace(core[0]) && !IsSpace(core[|core| - 1])
  {
    StrFacts(first);
    StrFacts(last);
  }

  /** What one part contributes. */
  lemma ItemParses(item: Item)
    requires Padded(item)
    ensures !PartFails(Text(item)) && forall x :: PartHas(Text(item), x) <==> Denotes(item, x)
  {
    match item {
      case Gap(pad) => StripBlank(pad);
      case Single(before, n, after) =>
        StrFacts(n);
        StripPads(before, Str(n), after);
        PartOfOne(n);
      case Span(before, first, left, right, last, after) =>
        SpanEnds(first, left, right, last);
        StripPads(before, Str(first) + left + "-" + (right + Str(last)), after);
        SpanParses(first, left, right, last);
    }
  }

  lemma FreeAppend(s: string, t: string, c: char)
    requires Free(s, c) && Free(t, c)
    ensures Free(s + t, c)
  {
  }

  lemma SpanFree(first: nat, left: string, right: string, last: int)
    requires Blank(left) && Blank(right)
    ensures Free(Str(first) + left + "-" + (right + Str(last)), ',')
  {
    StrFacts(first);
    StrFacts(last);
    BlankFree(left);
    BlankFree(right);
    FreeAppend(Str(first), left, ',');
    FreeAppend(Str(first) + left, "-", ',');
    FreeAppend(right, Str(last), ',');
    FreeAppend(Str(first) + left + "-", right + Str(last), ',');
  }

  lemma PaddedFree(before: string, s: string, after: string)
    requires Blank(before) && Blank(after) && Free(s, ',')
    ensures Free(before + s + after, ',')
  {
    BlankFree(before);
    BlankFree(after);
    FreeAppend(before, s, ',');
    FreeAppend(before + s, after, ',');
  }

  lemma ItemFree(item: Item)
    requires Padded(item)
    ensures Free(Text(item), ',')
  {
    match item {
      case Gap(pad) => BlankFree(pad);
      case Single(before, n, after) =>
        StrFacts(n);
        PaddedFree(before, Str(n), after);
      case Span(before, first, left, right, last, after) =>
        SpanFree(first, left, right, last);
        PaddedFree(before, Str(first) + left + "-" + (right + Str(last)), after);
    }
  }

  function Texts(items: seq<Item>): seq<string> {
    seq(|items|, i requires 0 <= i < |items| => Text(items[i]))
  }

  /**
   A comma-separated list of blanks, numbers and ranges, with any blanks around the
   numbers, means the ids for which its items stand, all together.
   */
  lemma MeaningOfItems(items: seq<Item>)
    requires forall i :: 0 <= i < |items| ==> Padded(items[i])
    ensures var spec := Join(Texts(items));
      Meaning(spec).Some? &&
      forall x :: x in Meaning(spec).value <==> exists i :: 0 <= i < |items| && Denotes(items[i], x)
  {
    var texts := Texts(items);
    var spec := Join(texts);
    if items != [] {
      forall i | 0 <= i < |items|
        ensures Free(texts[i], ',') && !PartFails(texts[i])
      {
        ItemFree(items[i]);
        ItemParses(items[i]);
      }
      SplitJoin(texts);
      FailsIff(spec);
      forall x ensures x in Meaning(spec).value <==> exists i :: 0 <= i < |items| && Denotes(items[i], x) {
        MeansIff(spec, x);
        DenotedIsHad(items, x);
      }
    }
  }

  lemma DenotedIsHad(items: seq<Item>, x: int)
    requires forall i :: 0 <= i < |items| ==> Padded(items[i])
    ensures (exists i :: 0 <= i < |items| && Denotes(items[i], x)) <==>
            (exists i :: 0 <= i < |Texts(items)| && PartHas(Texts(items)[i], x))
  {
    forall i | 0 <= i < |items| ensures PartHas(Texts(items)[i], x) <==> Denotes(items[i], x) {
      ItemParses(items[i]);
    }
  }

  /** Parsing such a list gives the ids for which its items stand, each once and in ascending order. */
  method ParseItems(items: seq<Item>) returns (r: seq<int>)
    requires forall i :: 0 <= i < |items| ==> Padded(items[i])
    ensures StrictlyAscending(r)
    ensures forall x :: x in r <==> exists i :: 0 <= i < |items| && Denotes(items[i], x)
  {
    MeaningOfItems(items);
    var parsed := DeviceRangeToList(Join(Texts(items)));
    r := parsed.value;
  }

  // -------------------------------------------------------------------------
  // Decimal numbers
  // -------------------------------------------------------------------------

  /** Numbers are printed in base ten, most significant digit first. */
  lemma DecimalForm(n: nat, d: nat)
    requires d < 10
    ensures Str(d) == ["0123456789"[d]]
    ensures n > 0 ==> Str(10 * n + d) == Str(n) + ["0123456789"[d]]
    ensures n > 0 ==> Str(0 - n as int) == "-" + Str(n)
  {
    assert (10 * n + d) / 10 == n && (10 * n + d) % 10 == d;
  }

  lemma {:induction false} UnderscoreSkipped(s: string, t: string)
    ensures Value(s + "_" + t) == Value(s + t)
    decreases |t|
  {
    if t == [] {
      assert (s + "_" + t)[..|s|] == s && s + t == s;
    } else {
      var n := |t| - 1;
      UnderscoreSkipped(s, t[..n]);
      assert (s + "_" + t)[..|s| + 1 + n] == s + "_" + t[..n];
      assert (s + t)[..|s| + n] == s + t[..n];
    }
  }

  lemma {:induction false} LeadingZero(s: string)
    ensures Value("0" + s) == Value(s)
    decreases |s|
  {
    if s != [] {
      var n := |s| - 1;
      LeadingZero(s[..n]);
      assert ("0" + s)[..1 + n] == "0" + s[..n];
    }
  }

  lemma Signed(sign: char, b: string)
    requires AllDigits(b) && (sign == '+' || sign == '-')
    ensures ToInt([sign] + b) == Some(if sign == '-' then 0 - Value(b) as int else Value(b) as int)
  {
    NothingToStrip([sign] + b);
    assert ([sign] + b)[1..] == b;
  }

  lemma ReadsDigits(t: string)
    requires AllDigits(t)
    ensures ToInt(t) == Some(Value(t) as int)
  {
    NothingToStrip(t);
  }

  lemma ZeroInFront(n: nat)
    ensures ToInt("0" + Str(n)) == Some(n)
  {
    DigitsAreDigits(n);
    LeadingZero(Str(n));
    ReadsDigits("0" + Str(n));
  }

  lemma SignInFront(sign: char, n: nat)
    requires sign == '+' || sign == '-'
    ensures ToInt([sign] + Str(n)) == Some(if sign == '-' then 0 - n as int else n)
  {
    DigitsAreDigits(n);
    Signed(sign, Str(n));
  }

  /** The signs of `int`, and leading zeros. */
  lemma Signs(n: nat)
    ensures ToInt("+" + Str(n)) == Some(n) && ToInt("-" + Str(n)) == Some(0 - n as int) && ToInt("0" + Str(n)) == Some(n)
  {
    SignInFront('+', n);
    SignInFront('-', n);
    ZeroInFront(n);
    assert ['+'] == "+" && ['-'] == "-";
  }

  lemma {:induction false} LStripLeft(s: string) returns (pad: string)
    ensures s == pad + LStrip(s) && Blank(pad)
  {
    pad := [];
    if s != [] && IsSpace(s[0]) {
      BlankIsSpace(s[0]);
      var rest := LStripLeft(s[1..]);
      pad := [s[0]] + rest;
    }
  }

  lemma {:induction false} RStripRight(s: string) returns (pad: string)
    ensures s == RStrip(s) + pad && Blank(pad)
    decreases |s|
  {
    pad := [];
    if s != [] && IsSpace(s[|s| - 1]) {
      BlankIsSpace(s[|s| - 1]);
      var rest := RStripRight(s[..|s| - 1]);
      pad := rest + [s[|s| - 1]];
    }
  }

  lemma SignAndBody(s: string) returns (sign: string, body: string)
    requires ToInt(s).Some?
    ensures Strip(s) == sign + body && (sign == "" || sign == "+" || sign == "-") && IsNumeral(body)
  {
    var t := Strip(s);
    if t != [] && (t[0] == '+' || t[0] == '-') {
      sign, body := [t[0]], t[1..];
    } else {
      sign, body := "", t;
    }
  }

  /** Digits with single underscores between them. */
  ghost predicate Plain(body: string) {
    && body != [] && body[0] != '_' && body[|body| - 1] != '_'
    && (forall i :: 0 <= i < |body| ==> '0' <= body[i] <= '9' || body[i] == '_')
    && (forall i :: 0 <= i < |body| - 1 ==> body[i] != '_' || body[i + 1] != '_')
  }

  /** Nothing else is a number: blanks, at most one sign, plain digits, blanks. */
  lemma AcceptedForm(s: string) returns (before: string, sign: string, body: string, after: string)
    requires ToInt(s).Some?
    ensures s == before + (sign + body) + after && Blank(before) && Blank(after)
    ensures (sign == "" || sign == "+" || sign == "-") && Plain(body)
  {
    before := LStripLeft(s);
    after := RStripRight(LStrip(s));
    sign, body := SignAndBody(s);
    assert s == before + (Strip(s) + after);
  }

  lemma PlainIsNumeral(body: string)
    requires Plain(body)
    ensures IsNumeral(body) && !IsSpace(body[0]) && !IsSpace(body[|body| - 1])
  {
  }

  /** And all of that is a number, without a sign ... */
  lemma AcceptsUnsigned(before: string, body: string, after: string)
    requires Blank(before) && Blank(after) && Plain(body)
    ensures ToInt(before + body + after) == Some(Value(body) as int)
  {
    PlainIsNumeral(body);
    StripPads(before, body, after);
  }

  /** ... or with one. */
  lemma AcceptsSigned(before: string, sign: char, body: string, after: string)
    requires Blank(before) && Blank(after) && (sign == '+' || sign == '-') && Plain(body)
    ensures ToInt(before + ([sign] + body) + after) == Some(if sign == '-' then 0 - Value(body) as int else Value(body) as int)
  {
    PlainIsNumeral(body);
    var t := [sign] + body;
    assert t[1..] == body && t[|t| - 1] == body[|body| - 1];
    StripPads(before, t, after);
  }

  /** Single underscores between digits change nothing; any other underscore is an error. */
  lemma Underscores(m: nat, n: nat)
    ensures ToInt(Str(m) + "_" + Str(n)).Some? && ToInt(Str(m) + "_" + Str(n)) == ToInt(Str(m) + Str(n))
    ensures ToInt(Str(m) + "__" + Str(n)) == None && ToInt("_" + Str(n)) == None && ToInt(Str(n) + "_") == None
  {
    DigitsAreDigits(m);
    DigitsAreDigits(n);
    OneUnderscore(Str(m), Str(n));
    BadUnderscore(Str(m), Str(n));
  }

  lemma OneUnderscore(a: string, b: string)
    requires AllDigits(a) && AllDigits(b)
    ensures ToInt(a + "_" + b).Some? && ToInt(a + "_" + b) == ToInt(a + b)
  {
    NothingToStrip(a + "_" + b);
    NothingToStrip(a + b);
    UnderscoreSkipped(a, b);
  }

  lemma BadUnderscore(a: string, b: string)
    requires AllDigits(a) && AllDigits(b)
    ensures ToInt(a + "__" + b) == None && ToInt("_" + b) == None && ToInt(b + "_") == None
  {
    var twice := a + "__" + b;
    NothingToStrip(twice);
    assert twice[|a|] == '_' && twice[|a| + 1] == '_' && twice[0] == a[0];
    assert !IsNumeral(twice);
    NothingToStrip("_" + b);
    NothingToStrip(b + "_");
    assert (b + "_")[|b|] == '_';
  }

  // -------------------------------------------------------------------------
  // The printed form
  // -------------------------------------------------------------------------

  lemma {:induction false} InsertMultiset(s: seq<int>, x: int)
    requires Ascending(s)
    ensures multiset(Insert(s, x)) == multiset(s) + multiset{x}
    decreases |s|
  {
    if s != [] && x >= s[0] {
      InsertMultiset(s[1..], x);
      assert s == [s[0]] + s[1..];
    }
  }

  lemma {:induction false} SortedMultiset(s: seq<int>)
    ensures multiset(Sorted(s)) == multiset(s)
    decreases |s|
  {
    if s != [] {
      var n := |s| - 1;
      SortedMultiset(s[..n]);
      InsertMultiset(Sorted(s[..n]), s[n]);
      assert s == s[..n] + [s[n]];
    }
  }

  /** An ascending list is determined by its elements with their multiplicities. */
  lemma {:induction false} AscendingIsUnique(s: seq<int>, t: seq<int>)
    requires Ascending(s) && Ascending(t) && multiset(s) == multiset(t)
    ensures s == t
    decreases |s|
  {
    assert |s| == |multiset(s)| && |t| == |multiset(t)|;
    if s != [] {
      assert s[0] in multiset(t) && t[0] in multiset(s);
      assert s[0] == t[0];
      assert s == [s[0]] + s[1..] && t == [t[0]] + t[1..];
      assert multiset(s[1..]) == multiset(s) - multiset{s[0]};
      assert multiset(t[1..]) == multiset(t) - multiset{t[0]};
      AscendingIsUnique(s[1..], t[1..]);
    }
  }

  lemma SortedIs(ids: seq<int>, s: seq<int>)
    requires Ascending(s) && multiset(s) == multiset(ids)
    ensures Sorted(ids) == s && |s| == |ids|
  {
    SortedMultiset(ids);
    AscendingIsUnique(Sorted(ids), s);
  }

  lemma PrintedOne(ids: seq<int>, s: seq<int>)
    requires |s| == |ids| == 1 && multiset(s) == multiset(ids)
    ensures RangeStr(ids) == Str(s[0])
  {
    assert ids[0] in multiset(s);
  }

  lemma PrintedMany(ids: seq<int>, s: seq<int>)
    requires |ids| >= 2 && Sorted(ids) == s && |s| == |ids|
    ensures RangeStr(ids) == if Contiguous(s) then Str(s[0]) + "-" + Str(s[|s| - 1]) else Join(Strs(s))
  {
  }

  /**
   The printed form of a list, given its elements in ascending order and their
   texts: nothing for the empty list, the number for a single one, a range exactly
   when there are two or more and each is one more than the last, and else all
   elements between commas.
   */
  lemma PrintedForm(ids: seq<int>, s: seq<int>, parts: seq<string>)
    requires Ascending(s) && multiset(s) == multiset(ids)
    requires |parts| == |s| && forall i :: 0 <= i < |s| ==> parts[i] == Str(s[i])
    ensures |s| == 0 ==> RangeStr(ids) == ""
    ensures |s| == 1 ==> RangeStr(ids) == parts[0]
    ensures |s| >= 2 && (forall i :: 0 <= i < |s| - 1 ==> s[i + 1] == s[i] + 1) ==>
      RangeStr(ids) == parts[0] + "-" + parts[|s| - 1]
    ensures |s| >= 2 && (exists i :: 0 <= i < |s| - 1 && s[i + 1] != s[i] + 1) ==> RangeStr(ids) == Join(parts)
  {
    SortedIs(ids, s);
    assert Strs(s) == parts;
    if |s| == 1 {
      PrintedOne(ids, s);
    } else if |s| >= 2 {
      PrintedMany(ids, s);
    }
  }

  // -------------------------------------------------------------------------
  // Reprinting
  // -------------------------------------------------------------------------

  lemma {:induction false} LStripFree(s: string, c: char)
    requires Free(s, c)
    ensures Free(LStrip(s), c)
    decreases |s|
  {
    if s != [] && IsSpace(s[0]) {
      LStripFree(s[1..], c);
    }
  }

  lemma {:induction false} RStripFree(s: string, c: char)
    requires Free(s, c)
    ensures Free(RStrip(s), c)
    decreases |s|
  {
    if s != [] && IsSpace(s[|s| - 1]) {
      RStripFree(s[..|s| - 1], c);
    }
  }

  lemma NoDashNoNegative(s: string)
    requires Free(s, '-')
    ensures ToInt(s).Some? ==> ToInt(s).value >= 0
  {
    LStripFree(s, '-');
    RStripFree(LStrip(s), '-');
  }

  lemma PartIsNonNegative(part: string)
    requires ParsePart(part).Some?
    ensures forall x :: x in ParsePart(part).value ==> x >= 0
  {
    NoDashNoNegative(part[..Find(part, '-')]);
    assert Find(part, '-') == |part| ==> part[..Find(part, '-')] == part;
  }

  lemma {:induction false} PartsAreNonNegative(parts: seq<string>)
    requires ParseParts(parts).Some?
    ensures forall x :: x in ParseParts(parts).value ==> x >= 0
    decreases |parts|
  {
    if parts != [] {
      PartsAreNonNegative(parts[..|parts| - 1]);
      var part := Strip(parts[|parts| - 1]);
      if part != [] {
        PartIsNonNegative(part);
      }
    }
  }

  /** Reprinting any accepted specification, as its sorted list of ids, keeps its meaning. */
  lemma ReprintKeepsMeaning(spec: string, ids: seq<int>)
    requires Meaning(spec).Some? && forall x :: x in ids <==> x in Meaning(spec).value
    ensures Meaning(RangeStr(ids)) == Meaning(spec)
  {
    if spec != [] {
      PartsAreNonNegative(Split(spec, ','));
    }
    assert forall i :: 0 <= i < |ids| ==> ids[i] in ids;
    RoundTrip(ids);
    assert Members(ids) == Meaning(spec).value;
  }
}
