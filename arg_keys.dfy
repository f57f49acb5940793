/**
 * The flat request-argument keys of a grid: `search`, `onpage`, `perpage`,
 * `export_to`, the per-column filter triple `op(<col>)`, `v1(<col>)`,
 * `v2(<col>)`, and the ordered sort keys `sort1`, `sort2`, ...
 * Keys are modelled as a datatype and rendered to their query-string
 * spelling by `KeyString`, which is proved injective, so that a map keyed
 * by `ArgKey` and its rendered string-keyed form say the same thing.
 */
module ArgKeys {

  datatype ArgKey =
    | Search
    | OnPage
    | PerPage
    | ExportTo
    | Op(column: string)
    | V1(column: string)
    | V2(column: string)
    | SortAt(position: nat)     // 1-based

  function DigitChar(d: nat): char
    requires d < 10
  {
    ('0' as int + d) as char
  }

  /** Decimal rendering of a natural number, as Python's `str` of an int. */
  function NatToString(n: nat): (s: string)
    ensures |s| >= 1
    ensures |s| == 1 <==> n < 10
    decreases n
  {
    if n < 10 then [DigitChar(n)] else NatToString(n / 10) + [DigitChar(n % 10)]
  }

  /** The query-string spelling of a key. */
  function KeyString(k: ArgKey): (s: string)
    ensures k.Op? || k.V1? || k.V2? ==> |s| == |k.column| + 4 && s[3..|s| - 1] == k.column
    ensures k.SortAt? ==> |s| >= 5 && s[4..] == NatToString(k.position)
  {
    match k
    case Search => "search"
    case OnPage => "onpage"
    case PerPage => "perpage"
    case ExportTo => "export_to"
    case Op(c) => "op(" + c + ")"
    case V1(c) => "v1(" + c + ")"
    case V2(c) => "v2(" + c + ")"
    case SortAt(i) => "sort" + NatToString(i)
  }

  /** The first two characters of a spelling tell the kind of key. */
  function Tag(k: ArgKey): string
  {
    match k
    case Search => "se"
    case OnPage => "on"
    case PerPage => "pe"
    case ExportTo => "ex"
    case Op(_) => "op"
    case V1(_) => "v1"
    case V2(_) => "v2"
    case SortAt(_) => "so"
  }

  lemma KeyStringTag(k: ArgKey)
    ensures |KeyString(k)| >= 2 && KeyString(k)[..2] == Tag(k)
  {
  }

  /** Distinct numbers have distinct decimal renderings. */
  lemma {:induction false} NatToStringInjective(a: nat, b: nat)
    requires NatToString(a) == NatToString(b)
    ensures a == b
    decreases a
  {
    var s := NatToString(a);
    if a < 10 || b < 10 {
      assert a < 10 && b < 10;
      assert s[0] == DigitChar(a) && s[0] == DigitChar(b);
    } else {
      assert s == NatToString(a / 10) + [DigitChar(a % 10)];
      assert s == NatToString(b / 10) + [DigitChar(b % 10)];
      assert s[..|s| - 1] == NatToString(a / 10) && s[..|s| - 1] == NatToString(b / 10);
      assert s[|s| - 1] == DigitChar(a % 10) && s[|s| - 1] == DigitChar(b % 10);
      NatToStringInjective(a / 10, b / 10);
    }
  }

  /** Distinct keys have distinct spellings. */
  lemma KeyStringInjective(a: ArgKey, b: ArgKey)
    requires KeyString(a) == KeyString(b)
    ensures a == b
  {
    KeyStringTag(a);
    KeyStringTag(b);
    var s := KeyString(a);
    assert Tag(a) == Tag(b);
    match a
    case Op(c) =>
      assert s[3..|s| - 1] == c && s[3..|s| - 1] == b.column;
    case V1(c) =>
      assert s[3..|s| - 1] == c && s[3..|s| - 1] == b.column;
    case V2(c) =>
      assert s[3..|s| - 1] == c && s[3..|s| - 1] == b.column;
    case SortAt(i) =>
      assert s[4..] == NatToString(i) && s[4..] == NatToString(b.position);
      NatToStringInjective(i, b.position);
    case _ =>
  }

  lemma KeyStringInjectiveAll()
    ensures forall a, b {:trigger KeyString(a), KeyString(b)} :: KeyString(a) == KeyString(b) ==> a == b
  {
    forall a, b | KeyString(a) == KeyString(b)
      ensures a == b
    {
      KeyStringInjective(a, b);
    }
  }

  /** The string-keyed form of an argument map, as it goes into a query string or dict. */
  function Render<V>(args: map<ArgKey, V>): (r: map<string, V>)
    ensures forall k :: k in args ==> KeyString(k) in r && r[KeyString(k)] == args[k]
  {
    KeyStringInjectiveAll();
    map k | k in args :: KeyString(k) := args[k]
  }

  /** Rendering keeps every entry and adds none. */
  lemma RenderAt<V>(args: map<ArgKey, V>, k: ArgKey)
    ensures KeyString(k) in Render(args) <==> k in args
    ensures k in args ==> Render(args)[KeyString(k)] == args[k]
  {
    KeyStringInjectiveAll();
  }

  /** Every string key of a rendered map spells a key of the structured map. */
  lemma RenderedKeySpellsArg<V>(args: map<ArgKey, V>, key: string)
    requires key in Render(args)
    ensures exists k :: k in args && KeyString(k) == key
  {
  }

  /** A string whose first two characters are no key's tag is absent from every rendered map. */
  lemma NoKeySpells<V>(args: map<ArgKey, V>, key: string)
    requires |key| >= 2
    requires key[..2] !in {"se", "on", "pe", "ex", "op", "v1", "v2", "so"}
    ensures key !in Render(args)
  {
    if key in Render(args) {
      RenderedKeySpellsArg(args, key);
      var k :| k in args && KeyString(k) == key;
      KeyStringTag(k);
      assert false;
    }
  }
}
