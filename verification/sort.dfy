/**
 * The generic in-place sort by a named field (internal/ui/common/sort/sort.go).
 * Reflection is replaced by a record schema (the field names and kinds of
 * the struct, or none for a non-struct type) and a function reading a
 * field's value from a record.
 */
module Sort {
  import opened Wrappers
  import opened Text
  import opened ApiTypes

  /** A field value as reflection sees it; only the kinds the records have. */
  datatype Value = Str(s: string) | Int(i: int) | Bool(b: bool)

  datatype FieldType = StringField | IntField | BoolField

  /** A struct field: its declared name and its kind. */
  datatype Field = Field(name: string, fieldType: FieldType)

  datatype Direction = Ascending | Descending

  /** Options: the field name and the configured order. */
  datatype Options = Options(field: string, order: string)

  /** The configured order values. */
  const SortOrderAscending := "asc"
  const SortOrderDescending := "desc"

  /** Sort's switch on the order: anything but the two names leaves the zero value, ascending. */
  function DirectionOf(order: string): (direction: Direction)
    ensures direction == Descending <==> order == SortOrderDescending
  {
    if order == SortOrderAscending then Ascending
    else if order == SortOrderDescending then Descending
    else Ascending
  }

  /** The fields whose name matches the requested one up to case. */
  function Matches(fields: seq<Field>, name: string): (r: seq<Field>)
    ensures forall f :: f in r <==> f in fields && EqualFold(name, f.name)
    ensures |r| <= |fields|
  {
    if |fields| == 0 then []
    else (if EqualFold(name, fields[0].name) then [fields[0]] else []) + Matches(fields[1..], name)
  }

  /**
   * fieldByName: a non-struct type (no schema) has no fields; otherwise the
   * field whose name equals the requested one up to case, provided exactly
   * one does (several matches at the same depth cancel each other out).
   */
  function FieldByName(schema: Option<seq<Field>>, name: string): (r: Option<Field>)
    ensures r.Some? ==> schema.Some? && r.value in schema.value && EqualFold(name, r.value.name)
    ensures r.Some? ==> forall f :: f in schema.value && EqualFold(name, f.name) ==> f == r.value
    ensures r.None? && schema.Some? ==> |Matches(schema.value, name)| != 1
  {
    match schema
    case None => None
    case Some(fields) =>
      var found := Matches(fields, name);
      if |found| == 1 then
        assert found[0] in found;
        Some(found[0])
      else None
  }

  /** cmp.Compare on strings: lexicographic by character code, which for UTF-8 is byte order. */
  function CompareText(a: string, b: string): (r: int)
    ensures -1 <= r <= 1
    ensures r == 0 <==> a == b
  {
    if |a| == 0 && |b| == 0 then 0
    else if |a| == 0 then -1
    else if |b| == 0 then 1
    else if a[0] < b[0] then -1
    else if a[0] > b[0] then 1
    else
      var r := CompareText(a[1..], b[1..]);
      assert r == 0 ==> a == [a[0]] + a[1..] == [b[0]] + b[1..] == b;
      r
  }

  /** cmp.Compare on integers. */
  function CompareInt(x: int, y: int): (r: int)
    ensures r < 0 <==> x < y
    ensures r == 0 <==> x == y
    ensures r > 0 <==> x > y
  {
    if x < y then -1 else if x > y then 1 else 0
  }

  /** The `%v` text of a boolean. */
  function BoolText(b: bool): string {
    if b then "true" else "false"
  }

  /** Value.String, Value.Int and Value.Bool; the comparator only reads a value of the field's own kind. */
  function StrOf(v: Value): string {
    if v.Str? then v.s else ""
  }

  function IntOf(v: Value): int {
    if v.Int? then v.i else 0
  }

  function BoolOf(v: Value): bool {
    v.Bool? && v.b
  }

  /** The ascending comparison, by the field's kind. */
  function CompareValues(fieldType: FieldType, a: Value, b: Value): int {
    match fieldType
    case StringField => CompareText(Lower(StrOf(a)), Lower(StrOf(b)))
    case IntField => CompareInt(IntOf(a), IntOf(b))
    case BoolField => CompareText(Lower(BoolText(BoolOf(a))), Lower(BoolText(BoolOf(b))))
  }

  /** comparator: the ascending comparison, negated for descending order. */
  function Compare(fieldType: FieldType, direction: Direction, a: Value, b: Value): int {
    var result := CompareValues(fieldType, a, b);
    if direction == Descending then -result else result
  }

  /** The comparator over records, reading the resolved field's value. */
  function Comparator<T>(field: Field, direction: Direction, valueOf: (T, string) -> Value): (T, T) -> int {
    (x: T, y: T) => Compare(field.fieldType, direction, valueOf(x, field.name), valueOf(y, field.name))
  }

  lemma {:induction false} CompareTextAntisymmetric(a: string, b: string)
    ensures CompareText(a, b) == -CompareText(b, a)
    decreases |a|
  {
    if |a| > 0 && |b| > 0 && a[0] == b[0] {
      CompareTextAntisymmetric(a[1..], b[1..]);
    }
  }

  lemma {:induction false} CompareTextTransitive(a: string, b: string, c: string)
    requires CompareText(a, b) <= 0 && CompareText(b, c) <= 0
    ensures CompareText(a, c) <= 0
    decreases |a|
  {
    if |a| > 0 && |b| > 0 && |c| > 0 && a[0] == b[0] && b[0] == c[0] {
      CompareTextTransitive(a[1..], b[1..], c[1..]);
    }
  }

  /** The comparator is antisymmetric: swapping the operands negates the result. */
  lemma CompareAntisymmetric(fieldType: FieldType, direction: Direction, a: Value, b: Value)
    ensures Compare(fieldType, direction, a, b) == -Compare(fieldType, direction, b, a)
  {
    match fieldType
    case StringField => CompareTextAntisymmetric(Lower(StrOf(a)), Lower(StrOf(b)));
    case IntField =>
    case BoolField => CompareTextAntisymmetric(Lower(BoolText(BoolOf(a))), Lower(BoolText(BoolOf(b))));
  }

  lemma CompareValuesTransitive(fieldType: FieldType, a: Value, b: Value, c: Value)
    requires CompareValues(fieldType, a, b) <= 0 && CompareValues(fieldType, b, c) <= 0
    ensures CompareValues(fieldType, a, c) <= 0
  {
    match fieldType
    case StringField => CompareTextTransitive(Lower(StrOf(a)), Lower(StrOf(b)), Lower(StrOf(c)));
    case IntField =>
    case BoolField =>
      CompareTextTransitive(Lower(BoolText(BoolOf(a))), Lower(BoolText(BoolOf(b))), Lower(BoolText(BoolOf(c))));
  }

  /** The comparator is transitive in both directions. */
  lemma CompareTransitive(fieldType: FieldType, direction: Direction, a: Value, b: Value, c: Value)
    requires Compare(fieldType, direction, a, b) <= 0 && Compare(fieldType, direction, b, c) <= 0
    ensures Compare(fieldType, direction, a, c) <= 0
  {
    if direction == Ascending {
      CompareValuesTransitive(fieldType, a, b, c);
    } else {
      CompareAntisymmetric(fieldType, Ascending, a, b);
      CompareAntisymmetric(fieldType, Ascending, b, c);
      CompareAntisymmetric(fieldType, Ascending, a, c);
      CompareValuesTransitive(fieldType, c, b, a);
    }
  }

  /** Descending negates the ascending comparison. */
  lemma DescendingNegates(fieldType: FieldType, a: Value, b: Value)
    ensures Compare(fieldType, Descending, a, b) == -Compare(fieldType, Ascending, a, b)
  {
  }

  /** String fields compare case-insensitively: values equal up to case are tied. */
  lemma StringsIgnoreCase(direction: Direction, a: string, b: string)
    requires EqualFold(a, b)
    ensures Compare(StringField, direction, Str(a), Str(b)) == 0
  {
  }

  /** Integer fields compare numerically. */
  lemma IntegersCompareNumerically(x: int, y: int)
    ensures Compare(IntField, Ascending, Int(x), Int(y)) < 0 <==> x < y
    ensures Compare(IntField, Ascending, Int(x), Int(y)) == 0 <==> x == y
  {
  }

  /** Boolean fields compare their text, so false sorts before true. */
  lemma FalseBeforeTrue()
    ensures Compare(BoolField, Ascending, Bool(false), Bool(true)) < 0
  {
    assert Lower(BoolText(false)) == "false";
    assert Lower(BoolText(true)) == "true";
  }

  /** Every two elements of the sequence are in order. */
  ghost predicate SortedBy<T>(s: seq<T>, cmp: (T, T) -> int) {
    forall i, j :: 0 <= i < j < |s| ==> cmp(s[i], s[j]) <= 0
  }

  /** What slices.SortFunc needs of its comparison: a total preorder. */
  ghost predicate TotalPreorder<T(!new)>(cmp: (T, T) -> int) {
    && (forall x, y :: cmp(x, y) == -cmp(y, x))
    && (forall x, y, z :: cmp(x, y) <= 0 && cmp(y, z) <= 0 ==> cmp(x, z) <= 0)
  }

  /** The record comparator is a total preorder. */
  lemma ComparatorIsTotalPreorder<T(!new)>(field: Field, direction: Direction, valueOf: (T, string) -> Value)
    ensures TotalPreorder(Comparator(field, direction, valueOf))
  {
    var cmp := Comparator(field, direction, valueOf);
    forall x, y ensures cmp(x, y) == -cmp(y, x) {
      CompareAntisymmetric(field.fieldType, direction, valueOf(x, field.name), valueOf(y, field.name));
    }
    forall x, y, z | cmp(x, y) <= 0 && cmp(y, z) <= 0 ensures cmp(x, z) <= 0 {
      CompareTransitive(field.fieldType, direction, valueOf(x, field.name), valueOf(y, field.name), valueOf(z, field.name));
    }
  }

  /** The position of a least element of a[lo..]. */
  method MinIndex<T(!new)>(a: array<T>, lo: int, cmp: (T, T) -> int) returns (m: int)
    requires 0 <= lo < a.Length
    requires TotalPreorder(cmp)
    ensures lo <= m < a.Length
    ensures forall k :: lo <= k < a.Length ==> cmp(a[m], a[k]) <= 0
  {
    m := lo;
    var j := lo + 1;
    while j < a.Length
      invariant lo <= m < j <= a.Length
      invariant forall k :: lo <= k < j ==> cmp(a[m], a[k]) <= 0
    {
      if cmp(a[j], a[m]) < 0 {
        m := j;
      }
      j := j + 1;
    }
  }

  /** The first i elements are in order among themselves. */
  ghost predicate SortedPrefix<T>(s: seq<T>, i: int, cmp: (T, T) -> int)
    requires 0 <= i <= |s|
  {
    forall p, q :: 0 <= p < q < i ==> cmp(s[p], s[q]) <= 0
  }

  /** No element of the first i is greater than an element after them. */
  ghost predicate Partitioned<T>(s: seq<T>, i: int, cmp: (T, T) -> int)
    requires 0 <= i <= |s|
  {
    forall p, q :: 0 <= p < i <= q < |s| ==> cmp(s[p], s[q]) <= 0
  }

  /** Swapping a least element of the rest to position i extends the sorted prefix by one. */
  lemma SelectionStep<T>(s: seq<T>, i: int, m: int, cmp: (T, T) -> int)
    requires 0 <= i <= m < |s|
    requires SortedPrefix(s, i, cmp) && Partitioned(s, i, cmp)
    requires forall k :: i <= k < |s| ==> cmp(s[m], s[k]) <= 0
    ensures var t := s[i := s[m]][m := s[i]];
      SortedPrefix(t, i + 1, cmp) && Partitioned(t, i + 1, cmp) && multiset(t) == multiset(s)
  {
    var t := s[i := s[m]][m := s[i]];
    assert t[i] == s[m];
    forall k | i < k < |t| ensures cmp(t[i], t[k]) <= 0 {
      if k == m { assert t[k] == s[i]; } else { assert t[k] == s[k]; }
    }
    forall p, q | 0 <= p < i + 1 <= q < |t| ensures cmp(t[p], t[q]) <= 0 {
      if p < i {
        if q == m { assert t[q] == s[i]; } else { assert t[q] == s[q]; }
      }
    }
  }

  /** slices.SortFunc: reorders the array in place so that it is sorted; stability is not promised. */
  method SortFunc<T(!new)>(a: array<T>, cmp: (T, T) -> int)
    requires TotalPreorder(cmp)
    modifies a
    ensures SortedBy(a[..], cmp)
    ensures multiset(a[..]) == multiset(old(a[..]))
  {
    var i := 0;
    while i < a.Length
      invariant 0 <= i <= a.Length
      invariant SortedPrefix(a[..], i, cmp) && Partitioned(a[..], i, cmp)
      invariant multiset(a[..]) == multiset(old(a[..]))
    {
      var m := MinIndex(a, i, cmp);
      SelectionStep(a[..], i, m, cmp);
      a[i], a[m] := a[m], a[i];
      i := i + 1;
    }
    assert SortedPrefix(a[..], a.Length, cmp);
  }

  /**
   * sort: an empty slice, an empty name or a name that does not resolve to
   * exactly one field leaves the slice as it is; otherwise it is sorted by
   * that field and direction.
   */
  method SortBy<T(!new)>(items: array<T>, name: string, direction: Direction,
                   schema: Option<seq<Field>>, valueOf: (T, string) -> Value)
    modifies items
    ensures items.Length == 0 || name == "" || FieldByName(schema, name).None? ==> items[..] == old(items[..])
    ensures items.Length > 0 && name != "" && FieldByName(schema, name).Some? ==>
      SortedBy(items[..], Comparator(FieldByName(schema, name).value, direction, valueOf))
    ensures multiset(items[..]) == multiset(old(items[..]))
  {
    if items.Length == 0 || name == "" {
      return;
    }
    var field := FieldByName(schema, name);
    if field.None? {
      return;
    }
    var cmp := Comparator(field.value, direction, valueOf);
    ComparatorIsTotalPreorder(field.value, direction, valueOf);
    SortFunc(items, cmp);
  }

  /** Sort: the order name picks the direction, then sort. */
  method SortWith<T(!new)>(items: array<T>, options: Options, schema: Option<seq<Field>>, valueOf: (T, string) -> Value)
    modifies items
    ensures items.Length == 0 || options.field == "" || FieldByName(schema, options.field).None? ==>
      items[..] == old(items[..])
    ensures items.Length > 0 && options.field != "" && FieldByName(schema, options.field).Some? ==>
      SortedBy(items[..], Comparator(FieldByName(schema, options.field).value, DirectionOf(options.order), valueOf))
    ensures multiset(items[..]) == multiset(old(items[..]))
  {
    SortBy(items, options.field, DirectionOf(options.order), schema, valueOf);
  }

  /** The elements of s in the opposite order. */
  function Reversed<T>(s: seq<T>): (r: seq<T>)
    ensures |r| == |s|
    ensures forall i :: 0 <= i < |s| ==> r[i] == s[|s| - 1 - i]
    ensures multiset(r) == multiset(s)
  {
    if |s| == 0 then []
    else
      assert s == [s[0]] + s[1..];
      Reversed(s[1..]) + [s[0]]
  }

  /** A strictly sorted sequence and a sorted arrangement of the same elements start alike. */
  lemma HeadsAgree<T>(s: seq<T>, r: seq<T>, cmp: (T, T) -> int)
    requires forall x, y :: cmp(x, y) == -cmp(y, x)
    requires forall i, j :: 0 <= i < j < |s| ==> cmp(s[i], s[j]) < 0
    requires SortedBy(r, cmp)
    requires multiset(s) == multiset(r)
    requires |s| > 0
    ensures |r| > 0 && s[0] == r[0]
  {
    assert |r| == |multiset(r)| == |s|;
    assert r[0] in multiset(s);
    var k :| 0 <= k < |s| && s[k] == r[0];
    assert s[0] in multiset(r);
    var m :| 0 <= m < |r| && r[m] == s[0];
    if k != 0 {
      assert false;
    }
  }

  /** A strictly sorted sequence is the only sorted arrangement of its elements. */
  lemma {:induction false} StrictlySortedIsUnique<T>(s: seq<T>, r: seq<T>, cmp: (T, T) -> int)
    requires forall x, y :: cmp(x, y) == -cmp(y, x)
    requires forall i, j :: 0 <= i < j < |s| ==> cmp(s[i], s[j]) < 0
    requires SortedBy(r, cmp)
    requires multiset(s) == multiset(r)
    ensures s == r
    decreases |s|
  {
    if |s| == 0 {
      assert |r| == |multiset(r)| == 0;
    } else {
      HeadsAgree(s, r, cmp);
      var s', r' := s[1..], r[1..];
      assert s == [s[0]] + s';
      assert r == [r[0]] + r';
      assert multiset(s) == multiset{s[0]} + multiset(s');
      assert multiset(r) == multiset{s[0]} + multiset(r');
      forall x ensures multiset(s')[x] == multiset(r')[x] {
        assert multiset(s)[x] == multiset{s[0]}[x] + multiset(s')[x];
        assert multiset(r)[x] == multiset{s[0]}[x] + multiset(r')[x];
      }
      assert multiset(s') == multiset(r');
      forall i, j | 0 <= i < j < |s'| ensures cmp(s'[i], s'[j]) < 0 {
        assert s'[i] == s[i + 1] && s'[j] == s[j + 1];
      }
      forall i, j | 0 <= i < j < |r'| ensures cmp(r'[i], r'[j]) <= 0 {
        assert r'[i] == r[i + 1] && r'[j] == r[j + 1];
      }
      StrictlySortedIsUnique(s', r', cmp);
    }
  }

  /** Reversing twice gives back the sequence. */
  lemma ReversedTwice<T>(s: seq<T>)
    ensures Reversed(Reversed(s)) == s
  {
    var r := Reversed(s);
    forall i | 0 <= i < |s| ensures Reversed(r)[i] == s[i] {
      assert Reversed(r)[i] == r[|s| - 1 - i];
    }
  }

  /** Reading a descending sort backwards gives an ascending sort. */
  lemma ReversedDescendingIsAscending<T>(t: seq<T>, field: Field, valueOf: (T, string) -> Value)
    requires SortedBy(t, Comparator(field, Descending, valueOf))
    ensures SortedBy(Reversed(t), Comparator(field, Ascending, valueOf))
  {
    var asc, desc := Comparator(field, Ascending, valueOf), Comparator(field, Descending, valueOf);
    var r, n := Reversed(t), |t|;
    forall i, j | 0 <= i < j < |r| ensures asc(r[i], r[j]) <= 0 {
      var x, y := t[n - 1 - j], t[n - 1 - i];
      assert r[i] == y && r[j] == x;
      assert desc(x, y) <= 0;
      CompareAntisymmetric(field.fieldType, Ascending, valueOf(y, field.name), valueOf(x, field.name));
    }
  }

  /**
   * With no two keys equal, the ascending and the descending sort of the same
   * records are each other's reverse.
   */
  lemma AscendingThenDescendingReverses<T>(s: seq<T>, t: seq<T>, field: Field, valueOf: (T, string) -> Value)
    requires multiset(s) == multiset(t)
    requires SortedBy(s, Comparator(field, Ascending, valueOf))
    requires SortedBy(t, Comparator(field, Descending, valueOf))
    requires forall i, j :: 0 <= i < j < |s| ==> Comparator(field, Ascending, valueOf)(s[i], s[j]) != 0
    ensures t == Reversed(s)
  {
    var asc := Comparator(field, Ascending, valueOf);
    forall x, y ensures asc(x, y) == -asc(y, x) {
      CompareAntisymmetric(field.fieldType, Ascending, valueOf(x, field.name), valueOf(y, field.name));
    }
    forall i, j | 0 <= i < j < |s| ensures asc(s[i], s[j]) < 0 {
    }
    ReversedDescendingIsAscending(t, field, valueOf);
    var r := Reversed(t);
    StrictlySortedIsUnique(s, r, asc);
    assert s == r;
    ReversedTwice(t);
  }

  /** The fields of the content package record, in declaration order. */
  const PackageFields: seq<Field> := [
    Field("ID", StringField), Field("Version", StringField), Field("Name", StringField),
    Field("ShortText", StringField), Field("Description", StringField), Field("Vendor", StringField),
    Field("PartnerContent", BoolField), Field("Mode", StringField), Field("UpdateAvailable", BoolField),
    Field("SupportedPlatform", StringField), Field("Products", StringField), Field("Keywords", StringField),
    Field("Countries", StringField), Field("Industries", StringField), Field("LineOfBusiness", StringField),
    Field("ResourceID", StringField), Field("CreatedBy", StringField), Field("CreationDate", IntField),
    Field("ModifiedBy", StringField), Field("ModifiedDate", IntField)
  ]

  /** Reads a content package field by its declared name. */
  function PackageValue(pkg: ContentPackage, name: string): Value {
    match name
    case "ID" => Str(pkg.id)
    case "Version" => Str(pkg.version)
    case "Name" => Str(pkg.name)
    case "ShortText" => Str(pkg.shortText)
    case "Description" => Str(pkg.description)
    case "Vendor" => Str(pkg.vendor)
    case "PartnerContent" => Bool(pkg.partnerContent)
    case "Mode" => Str(pkg.mode)
    case "UpdateAvailable" => Bool(pkg.updateAvailable)
    case "SupportedPlatform" => Str(pkg.supportedPlatform)
    case "Products" => Str(pkg.products)
    case "Keywords" => Str(pkg.keywords)
    case "Countries" => Str(pkg.countries)
    case "Industries" => Str(pkg.industries)
    case "LineOfBusiness" => Str(pkg.lineOfBusiness)
    case "ResourceID" => Str(pkg.resourceId)
    case "CreatedBy" => Str(pkg.createdBy)
    case "CreationDate" => Int(pkg.creationDate)
    case "ModifiedBy" => Str(pkg.modifiedBy)
    case "ModifiedDate" => Int(pkg.modifiedDate)
    case _ => Str("")
  }

  /** The fields of the integration artifact record, in declaration order. */
  const ArtifactFields: seq<Field> := [
    Field("ID", StringField), Field("Version", StringField), Field("PackageID", StringField),
    Field("Name", StringField), Field("Description", StringField), Field("CreatedBy", StringField),
    Field("CreatedAt", IntField), Field("ModifiedBy", StringField), Field("ModifiedAt", IntField)
  ]

  /** Reads an integration artifact field by its declared name. */
  function ArtifactValue(artifact: IntegrationArtifact, name: string): Value {
    match name
    case "ID" => Str(artifact.id)
    case "Version" => Str(artifact.version)
    case "PackageID" => Str(artifact.packageId)
    case "Name" => Str(artifact.name)
    case "Description" => Str(artifact.description)
    case "CreatedBy" => Str(artifact.createdBy)
    case "CreatedAt" => Int(artifact.createdAt)
    case "ModifiedBy" => Str(artifact.modifiedBy)
    case "ModifiedAt" => Int(artifact.modifiedAt)
    case _ => Str("")
  }

  /** A field name resolves the same way whatever its case. */
  lemma FieldLookupIgnoresCase(schema: Option<seq<Field>>, a: string, b: string)
    requires EqualFold(a, b)
    ensures FieldByName(schema, a) == FieldByName(schema, b)
  {
    if schema.Some? {
      MatchesIgnoreCase(schema.value, a, b);
    }
  }

  lemma {:induction false} MatchesIgnoreCase(fields: seq<Field>, a: string, b: string)
    requires EqualFold(a, b)
    ensures Matches(fields, a) == Matches(fields, b)
  {
    if |fields| > 0 {
      MatchesIgnoreCase(fields[1..], a, b);
    }
  }

  /** A non-struct type never resolves a field, so sorting it changes nothing. */
  lemma NonStructNeverResolves(name: string)
    ensures FieldByName(None, name).None?
  {
  }

  /** Names equal up to case have the same length. */
  lemma EqualFoldSameLength(a: string, b: string)
    requires EqualFold(a, b)
    ensures |a| == |b|
  {
    assert |Lower(a)| == |Lower(b)|;
  }

  /** A name no field matches matches nothing. */
  lemma {:induction false} NoMatch(fields: seq<Field>, name: string)
    requires forall j :: 0 <= j < |fields| ==> !EqualFold(name, fields[j].name)
    ensures Matches(fields, name) == []
  {
    if |fields| > 0 {
      assert forall j :: 0 <= j < |fields[1..]| ==> fields[1..][j] == fields[j + 1];
      NoMatch(fields[1..], name);
    }
  }

  /** A name that exactly one field matches resolves to that field. */
  lemma {:induction false} SingleMatch(fields: seq<Field>, name: string, k: int)
    requires 0 <= k < |fields| && EqualFold(name, fields[k].name)
    requires forall j :: 0 <= j < |fields| && EqualFold(name, fields[j].name) ==> j == k
    ensures Matches(fields, name) == [fields[k]]
  {
    if k == 0 {
      forall j | 0 <= j < |fields[1..]| ensures !EqualFold(name, fields[1..][j].name) {
        assert fields[1..][j] == fields[j + 1];
      }
      NoMatch(fields[1..], name);
    } else {
      forall j | 0 <= j < |fields[1..]| && EqualFold(name, fields[1..][j].name) ensures j == k - 1 {
        assert fields[1..][j] == fields[j + 1];
      }
      SingleMatch(fields[1..], name, k - 1);
    }
  }

  /** The configured default field, ID, resolves on the package record. */
  lemma PackageIDResolves()
    ensures FieldByName(Some(PackageFields), "ID") == Some(Field("ID", StringField))
  {
    forall j | 1 <= j < |PackageFields| ensures !EqualFold("ID", PackageFields[j].name) {
      if EqualFold("ID", PackageFields[j].name) {
        EqualFoldSameLength("ID", PackageFields[j].name);
      }
    }
    SingleMatch(PackageFields, "ID", 0);
  }

  /** The configured default field, ID, resolves on the artifact record. */
  lemma ArtifactIDResolves()
    ensures FieldByName(Some(ArtifactFields), "ID") == Some(Field("ID", StringField))
  {
    forall j | 1 <= j < |ArtifactFields| ensures !EqualFold("ID", ArtifactFields[j].name) {
      if EqualFold("ID", ArtifactFields[j].name) {
        EqualFoldSameLength("ID", ArtifactFields[j].name);
      }
    }
    SingleMatch(ArtifactFields, "ID", 0);
  }
}
