/** The JSON formatter page (src/app/json-formatter/page.tsx): recursive
    sorting of object keys, and the Format, Minify, Validate and Clear
    handlers over an abstract `JSON.parse` / `JSON.stringify`. */
module JsonFormatter {
  import opened Common
  import opened StableSort

  /** A parsed JSON value. An object keeps its members in order; objects that
      `JSON.parse` builds never repeat a key. */
  datatype Json =
    | Null
    | Bool(b: bool)
    | Number(n: real)
    | String(s: string)
    | Array(items: seq<Json>)
    | Object(members: seq<Member>)

  datatype Member = Member(key: string, value: Json)

  predicate IsScalar(v: Json) {
    v.Null? || v.Bool? || v.Number? || v.String?
  }

  function Keys(ms: seq<Member>): set<string> {
    set m | m in ms :: m.key
  }

  function KeyOf(m: Member): string {
    m.key
  }

  ghost predicate DistinctKeys(ms: seq<Member>) {
    DistinctBy(ms, KeyOf)
  }

  /** `obj[key]`: the value stored under `key`, if any. */
  function Lookup(ms: seq<Member>, key: string): (r: Option<Json>)
    ensures r.Some? <==> key in Keys(ms)
  {
    if ms == [] then None
    else if ms[0].key == key then Some(ms[0].value)
    else
      assert ms == [ms[0]] + ms[1..];
      Lookup(ms[1..], key)
  }

  // ---------------------------------------------------------------------
  // Key order: the default `Array.prototype.sort` order on strings, which
  // compares character by character and puts a prefix first.

  predicate KeyLessEq(a: string, b: string) {
    a == [] || (b != [] && (a[0] < b[0] || (a[0] == b[0] && KeyLessEq(a[1..], b[1..]))))
  }

  lemma {:induction false} KeyLessEqTotal(a: string, b: string)
    ensures KeyLessEq(a, b) || KeyLessEq(b, a)
  {
    if a != [] && b != [] && a[0] == b[0] {
      KeyLessEqTotal(a[1..], b[1..]);
    }
  }

  lemma {:induction false} KeyLessEqTransitive(a: string, b: string, c: string)
    requires KeyLessEq(a, b) && KeyLessEq(b, c)
    ensures KeyLessEq(a, c)
  {
    if a != [] && a[0] == b[0] && b[0] == c[0] {
      KeyLessEqTransitive(a[1..], b[1..], c[1..]);
    }
  }

  lemma {:induction false} KeyLessEqAntisymmetric(a: string, b: string)
    requires KeyLessEq(a, b) && KeyLessEq(b, a)
    ensures a == b
  {
    if a != [] {
      KeyLessEqAntisymmetric(a[1..], b[1..]);
      assert a == [a[0]] + a[1..] && b == [b[0]] + b[1..];
    }
  }

  predicate MemberLe(x: Member, y: Member) {
    KeyLessEq(x.key, y.key)
  }

  lemma MemberOrder()
    ensures TotalPreorder(MemberLe)
  {
    forall x: Member, y: Member ensures MemberLe(x, y) || MemberLe(y, x) {
      KeyLessEqTotal(x.key, y.key);
    }
    forall x: Member, y: Member, z: Member | MemberLe(x, y) && MemberLe(y, z)
      ensures MemberLe(x, z)
    {
      KeyLessEqTransitive(x.key, y.key, z.key);
    }
  }

  // ---------------------------------------------------------------------
  // sortObjectKeys

  /** `sortObjectKeys`: arrays are mapped element by element, objects are
      rebuilt with their keys in ascending order and every value sorted in
      turn, and every other value is returned as it is. */
  function SortKeys(v: Json): (r: Json)
    decreases v, 1
    ensures IsScalar(v) ==> r == v
    ensures v.Array? <==> r.Array?
    ensures v.Object? <==> r.Object?
    ensures v.Array? ==> |r.items| == |v.items|
    ensures v.Object? ==> |r.members| == |v.members|
  {
    match v
    case Array(items) =>
      Array(seq(|items|, i requires 0 <= i < |items| => SortKeys(items[i])))
    case Object(ms) =>
      Object(SortBy(SortedValues(ms), MemberLe))
    case _ => v
  }

  /** The members of `ms` with every value sorted, before the members
      themselves are put in order. */
  function SortedValues(ms: seq<Member>): (r: seq<Member>)
    decreases Object(ms), 0
    ensures |r| == |ms|
    ensures forall i :: 0 <= i < |ms| ==> r[i].key == ms[i].key
  {
    seq(|ms|, i requires 0 <= i < |ms| => Member(ms[i].key, SortKeys(ms[i].value)))
  }

  /** Element `i` of a sorted array is the sorted element `i` of the input. */
  lemma SortKeysArray(items: seq<Json>)
    ensures SortKeys(Array(items)).items == seq(|items|, i requires 0 <= i < |items| => SortKeys(items[i]))
    ensures forall i :: 0 <= i < |items| ==> SortKeys(Array(items)).items[i] == SortKeys(items[i])
  {
  }

  lemma KeysOfPermutation(a: seq<Member>, b: seq<Member>)
    requires multiset(a) == multiset(b)
    ensures Keys(a) == Keys(b)
  {
    forall k | k in Keys(a) ensures k in Keys(b) {
      var m :| m in a && m.key == k;
      assert m in multiset(b);
    }
    forall k | k in Keys(b) ensures k in Keys(a) {
      var m :| m in b && m.key == k;
      assert m in multiset(a);
    }
  }

  /** The keys of a sorted object are exactly the input's keys, in
      ascending order. */
  lemma SortKeysObjectKeys(ms: seq<Member>)
    ensures Keys(SortKeys(Object(ms)).members) == Keys(ms)
    ensures SortedBy(SortKeys(Object(ms)).members, MemberLe)
  {
    var sv := SortedValues(ms);
    KeysOfPermutation(SortBy(sv, MemberLe), sv);
    assert Keys(sv) == Keys(ms) by {
      forall k | k in Keys(ms) ensures k in Keys(sv) {
        var i :| 0 <= i < |ms| && ms[i].key == k;
        assert sv[i] in sv;
      }
      forall k | k in Keys(sv) ensures k in Keys(ms) {
        var i :| 0 <= i < |sv| && sv[i].key == k;
        assert ms[i] in ms;
      }
    }
    MemberOrder();
    SortBySorted(sv, MemberLe);
  }

  /** With distinct keys, the sorted keys are strictly ascending. */
  lemma SortKeysObjectStrictlyAscending(ms: seq<Member>)
    requires DistinctKeys(ms)
    ensures var r := SortKeys(Object(ms)).members;
      forall i, j :: 0 <= i < j < |r| ==> KeyLessEq(r[i].key, r[j].key) && r[i].key != r[j].key
  {
    SortKeysObjectKeys(ms);
    SortPreservesDistinct(SortedValues(ms));
  }

  // Lookups through the sort.

  lemma {:induction false} LookupSortedValues(ms: seq<Member>, key: string)
    ensures Lookup(SortedValues(ms), key) ==
      match Lookup(ms, key) case None => None case Some(x) => Some(SortKeys(x))
  {
    if ms != [] {
      LookupSortedValues(ms[1..], key);
      assert SortedValues(ms)[1..] == SortedValues(ms[1..]);
    }
  }

  lemma {:induction false} LookupInsert(m: Member, s: seq<Member>, key: string)
    requires m.key !in Keys(s)
    ensures Lookup(InsertBy(m, s, MemberLe), key) == if key == m.key then Some(m.value) else Lookup(s, key)
  {
    if s != [] && !MemberLe(m, s[0]) {
      assert s[0] in s;
      assert m.key !in Keys(s[1..]) by {
        forall x | x in s[1..] ensures x.key != m.key {
          assert x in s;
        }
      }
      LookupInsert(m, s[1..], key);
      var r := InsertBy(m, s, MemberLe);
      assert r[0] == s[0] && r[1..] == InsertBy(m, s[1..], MemberLe);
    }
  }

  lemma {:induction false} InsertPreservesDistinct(m: Member, s: seq<Member>)
    requires DistinctKeys(s) && m.key !in Keys(s)
    ensures DistinctKeys(InsertBy(m, s, MemberLe))
  {
    if s == [] || MemberLe(m, s[0]) {
      ConsDistinctBy(m, s, KeyOf);
    } else {
      assert s == [s[0]] + s[1..];
      ConsDistinctBy(s[0], s[1..], KeyOf);
      assert m.key !in Keys(s[1..]);
      InsertPreservesDistinct(m, s[1..]);
      var tail := InsertBy(m, s[1..], MemberLe);
      KeysOfPermutation(tail, s[1..] + [m]);
      assert s[0].key != m.key by { assert s[0] in s; }
      assert s[0].key !in Keys(tail) by {
        assert Keys(s[1..] + [m]) == Keys(s[1..]) + {m.key};
      }
      forall y | y in tail ensures KeyOf(y) != KeyOf(s[0]) {
        assert y.key in Keys(tail);
      }
      ConsDistinctBy(s[0], tail, KeyOf);
    }
  }

  lemma {:induction false} SortPreservesDistinct(ms: seq<Member>)
    requires DistinctKeys(ms)
    ensures DistinctKeys(SortBy(ms, MemberLe))
  {
    if ms != [] {
      assert ms == [ms[0]] + ms[1..];
      ConsDistinctBy(ms[0], ms[1..], KeyOf);
      SortPreservesDistinct(ms[1..]);
      var rest := SortBy(ms[1..], MemberLe);
      KeysOfPermutation(rest, ms[1..]);
      InsertPreservesDistinct(ms[0], rest);
    }
  }

  lemma {:induction false} LookupSort(ms: seq<Member>, key: string)
    requires DistinctKeys(ms)
    ensures Lookup(SortBy(ms, MemberLe), key) == Lookup(ms, key)
  {
    if ms != [] {
      assert ms == [ms[0]] + ms[1..];
      ConsDistinctBy(ms[0], ms[1..], KeyOf);
      LookupSort(ms[1..], key);
      var rest := SortBy(ms[1..], MemberLe);
      KeysOfPermutation(rest, ms[1..]);
      LookupInsert(ms[0], rest, key);
    }
  }

  /** For an object with distinct keys, the value under each key of the
      sorted object is the sorted value the input held under that key. */
  lemma SortKeysObjectValues(ms: seq<Member>, key: string)
    requires DistinctKeys(ms)
    ensures Lookup(SortKeys(Object(ms)).members, key) ==
      match Lookup(ms, key) case None => None case Some(x) => Some(SortKeys(x))
  {
    var sv := SortedValues(ms);
    assert DistinctKeys(sv);
    LookupSort(sv, key);
    LookupSortedValues(ms, key);
  }

  // ---------------------------------------------------------------------
  // Idempotence

  /** Keys in ascending order in every object, at every depth. */
  ghost predicate DeepSorted(v: Json)
    decreases v
  {
    match v
    case Array(items) => forall i :: 0 <= i < |items| ==> DeepSorted(items[i])
    case Object(ms) =>
      SortedBy(ms, MemberLe) && forall i :: 0 <= i < |ms| ==> DeepSorted(ms[i].value)
    case _ => true
  }

  lemma {:induction false} SortKeysDeepSorted(v: Json)
    decreases v
    ensures DeepSorted(SortKeys(v))
  {
    match v
    case Array(items) =>
      forall i | 0 <= i < |items| ensures DeepSorted(SortKeys(items[i])) {
        SortKeysDeepSorted(items[i]);
      }
    case Object(ms) =>
      SortKeysObjectKeys(ms);
      var sv := SortedValues(ms);
      var r := SortBy(sv, MemberLe);
      forall i | 0 <= i < |r| ensures DeepSorted(r[i].value) {
        assert r[i] in multiset(sv);
        var j :| 0 <= j < |sv| && sv[j] == r[i];
        SortKeysDeepSorted(ms[j].value);
      }
    case _ =>
  }

  lemma {:induction false} DeepSortedFixpoint(v: Json)
    decreases v
    requires DeepSorted(v)
    ensures SortKeys(v) == v
  {
    match v
    case Array(items) =>
      forall i | 0 <= i < |items| ensures SortKeys(items[i]) == items[i] {
        DeepSortedFixpoint(items[i]);
      }
    case Object(ms) =>
      forall i | 0 <= i < |ms| ensures SortKeys(ms[i].value) == ms[i].value {
        DeepSortedFixpoint(ms[i].value);
      }
      assert SortedValues(ms) == ms;
      SortBySortedFixpoint(ms, MemberLe);
    case _ =>
  }

  /** Sorting an already sorted value changes nothing. */
  lemma SortKeysIdempotent(v: Json)
    ensures SortKeys(SortKeys(v)) == SortKeys(v)
  {
    SortKeysDeepSorted(v);
    DeepSortedFixpoint(SortKeys(v));
  }

  // ---------------------------------------------------------------------
  // sortObjectKeys as written: `result[key] = ...` on a fresh `{}` goes
  // through the inherited `__proto__` accessor when key is "__proto__", so
  // no own property of that name is created and the member is lost.

  const ProtoKey: string := "__proto__"

  function DropProto(ms: seq<Member>): (r: seq<Member>)
    ensures forall m :: m in r ==> m in ms && m.key != ProtoKey
    ensures forall m :: m in ms && m.key != ProtoKey ==> m in r
  {
    if ms == [] then []
    else if ms[0].key == ProtoKey then DropProto(ms[1..])
    else [ms[0]] + DropProto(ms[1..])
  }

  function SortKeysAsWritten(v: Json): (r: Json)
    decreases v
    ensures r.Object? ==> forall m :: m in r.members ==> m.key != ProtoKey
  {
    match v
    case Array(items) =>
      Array(seq(|items|, i requires 0 <= i < |items| => SortKeysAsWritten(items[i])))
    case Object(ms) =>
      Object(DropProto(SortBy(seq(|ms|, i requires 0 <= i < |ms| =>
        Member(ms[i].key, SortKeysAsWritten(ms[i].value))), MemberLe)))
    case _ => v
  }

  /** No object at any depth has a `"__proto__"` key. */
  ghost predicate NoProto(v: Json)
    decreases v
  {
    match v
    case Array(items) => forall i :: 0 <= i < |items| ==> NoProto(items[i])
    case Object(ms) =>
      ProtoKey !in Keys(ms) && forall i :: 0 <= i < |ms| ==> NoProto(ms[i].value)
    case _ => true
  }

  lemma {:induction false} DropProtoNone(ms: seq<Member>)
    requires ProtoKey !in Keys(ms)
    ensures DropProto(ms) == ms
  {
    if ms != [] {
      assert ms[0] in ms;
      assert ProtoKey !in Keys(ms[1..]) by {
        forall m | m in ms[1..] ensures m.key != ProtoKey {
          assert m in ms;
        }
      }
      DropProtoNone(ms[1..]);
      assert ms == [ms[0]] + ms[1..];
    }
  }

  /** Away from `"__proto__"` keys the sort as written and the corrected sort
      agree. */
  lemma {:induction false} AsWrittenAgrees(v: Json)
    decreases v
    requires NoProto(v)
    ensures SortKeysAsWritten(v) == SortKeys(v)
  {
    match v
    case Array(items) =>
      forall i | 0 <= i < |items| ensures SortKeysAsWritten(items[i]) == SortKeys(items[i]) {
        AsWrittenAgrees(items[i]);
      }
    case Object(ms) =>
      var a := seq(|ms|, i requires 0 <= i < |ms| => Member(ms[i].key, SortKeysAsWritten(ms[i].value)));
      forall i | 0 <= i < |ms| ensures SortKeysAsWritten(ms[i].value) == SortKeys(ms[i].value) {
        AsWrittenAgrees(ms[i].value);
      }
      assert a == SortedValues(ms);
      SortKeysObjectKeys(ms);
      DropProtoNone(SortBy(a, MemberLe));
    case _ =>
  }

  /** `{"__proto__": 1}` loses its only key when sorted as written; the
      corrected sort keeps it. */
  lemma ProtoKeyLost()
    ensures var v := Object([Member(ProtoKey, Number(1.0))]);
      SortKeysAsWritten(v) == Object([]) && SortKeys(v) == v
      && Keys(SortKeys(v).members) == Keys(v.members) != Keys(SortKeysAsWritten(v).members)
  {
    var v := Object([Member(ProtoKey, Number(1.0))]);
    var sv := [Member(ProtoKey, Number(1.0))];
    assert seq(1, i requires 0 <= i < 1 => Member(v.members[i].key, SortKeysAsWritten(v.members[i].value))) == sv;
    assert SortBy(sv, MemberLe) == sv;
    assert DropProto(sv) == [];
    assert SortedValues(v.members) == sv;
    assert Keys(sv) == {ProtoKey};
  }

  // ---------------------------------------------------------------------
  // The page state

  /** What `JSON.parse(input)` does: a value, or the value it throws. */
  datatype ParseResult = Parsed(value: Json) | Threw(err: Thrown)

  const InvalidJson: string := "Invalid JSON"
  const ValidJson: string := "\U{2713} Valid JSON"

  /** The indentation choices of the Indent selector. */
  const IndentOptions: set<nat> := {2, 4, 8}

  /** The formatter page's state. `JSON.parse` is the `parse` argument of the
      handlers; `JSON.stringify(value, null, indent)` is `stringify(value,
      indent)`, with indent 0 for the compact form `JSON.stringify(value)`. */
  class Formatter {
    var input: string
    var output: string
    var error: string
    var indentSize: nat
    var sortKeys: bool
    var copied: bool

    constructor ()
      ensures input == "" && output == "" && error == ""
      ensures indentSize == 2 && !sortKeys && !copied
    {
      input, output, error := "", "", "";
      indentSize, sortKeys, copied := 2, false, false;
    }

    /** The value the handlers serialise: the parsed value, sorted when the
        Sort Keys box is checked. */
    function Prepared(parsed: Json): (v: Json)
      reads this
      ensures !sortKeys ==> v == parsed
      ensures sortKeys ==> DeepSorted(v)
      ensures sortKeys ==> SortKeys(v) == v
    {
      SortKeysDeepSorted(parsed);
      SortKeysIdempotent(parsed);
      if sortKeys then SortKeys(parsed) else parsed
    }

    method SetInput(text: string)
      modifies this
      ensures input == text
      ensures output == old(output) && error == old(error) && copied == old(copied)
      ensures indentSize == old(indentSize) && sortKeys == old(sortKeys)
    {
      input := text;
    }

    method SetIndentSize(n: nat)
      requires n in IndentOptions
      modifies this
      ensures indentSize == n && indentSize in IndentOptions
      ensures input == old(input) && output == old(output) && error == old(error)
      ensures sortKeys == old(sortKeys) && copied == old(copied)
    {
      indentSize := n;
    }

    method SetSortKeys(checked: bool)
      modifies this
      ensures sortKeys == checked
      ensures input == old(input) && output == old(output) && error == old(error)
      ensures indentSize == old(indentSize) && copied == old(copied)
    {
      sortKeys := checked;
    }

    /** Format/Prettify: serialise with the chosen indentation, or report the
        parse failure and clear the output. */
    method FormatJson(parse: string -> ParseResult, stringify: (Json, nat) -> string)
      modifies this
      ensures input == old(input) && indentSize == old(indentSize)
      ensures sortKeys == old(sortKeys) && copied == old(copied)
      ensures parse(input).Parsed? ==>
        error == "" && output == stringify(Prepared(parse(input).value), indentSize)
      ensures parse(input).Threw? ==>
        output == "" && error == ErrorText(parse(input).err, InvalidJson)
    {
      error := "";
      match parse(input)
      case Parsed(v) =>
        output := stringify(Prepared(v), indentSize);
      case Threw(e) =>
        error := ErrorText(e, InvalidJson);
        output := "";
    }

    /** Minify: serialise without whitespace, or report the parse failure. */
    method MinifyJson(parse: string -> ParseResult, stringify: (Json, nat) -> string)
      modifies this
      ensures input == old(input) && indentSize == old(indentSize)
      ensures sortKeys == old(sortKeys) && copied == old(copied)
      ensures parse(input).Parsed? ==>
        error == "" && output == stringify(Prepared(parse(input).value), 0)
      ensures parse(input).Threw? ==>
        output == "" && error == ErrorText(parse(input).err, InvalidJson)
    {
      error := "";
      match parse(input)
      case Parsed(v) =>
        output := stringify(Prepared(v), 0);
      case Threw(e) =>
        error := ErrorText(e, InvalidJson);
        output := "";
    }

    /** Validate: a fixed confirmation, or the parse failure. */
    method ValidateJson(parse: string -> ParseResult)
      modifies this
      ensures input == old(input) && indentSize == old(indentSize)
      ensures sortKeys == old(sortKeys) && copied == old(copied)
      ensures parse(input).Parsed? ==> error == "" && output == ValidJson
      ensures parse(input).Threw? ==>
        output == "" && error == ErrorText(parse(input).err, InvalidJson)
    {
      match parse(input)
      case Parsed(_) =>
        error := "";
        output := ValidJson;
      case Threw(e) =>
        error := ErrorText(e, InvalidJson);
        output := "";
    }

    /** Copy: the flag is raised only when the clipboard write succeeded. */
    method CopyToClipboard(written: bool)
      modifies this
      ensures copied == (old(copied) || written)
      ensures input == old(input) && output == old(output) && error == old(error)
      ensures indentSize == old(indentSize) && sortKeys == old(sortKeys)
    {
      if written {
        copied := true;
      }
    }

    /** Clear: empties the text fields and the copied flag, keeps the options. */
    method ClearAll()
      modifies this
      ensures input == "" && output == "" && error == "" && !copied
      ensures indentSize == old(indentSize) && sortKeys == old(sortKeys)
    {
      input, output, error, copied := "", "", "", false;
    }
  }
}
