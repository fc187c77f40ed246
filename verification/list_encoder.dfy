/**
 * The nested-list convention of the layouts whose fields hold lists (payment information,
 * bank accounts): the sub-fields of one item are joined with ';' and the items with '|',
 * all inside a single CSV token.
 */
module ListEncoder {
  import opened Text

  const FIELD_SEPARATOR := ';'
  const ITEM_SEPARATOR := '|'

  /** `';'.join(sub_fields)`. */
  function EncodeItem(fields: seq<string>): string
  {
    Join(fields, [FIELD_SEPARATOR])
  }

  /** `'|'.join(';'.join(item) for item in items)`. */
  function EncodeItems(items: seq<seq<string>>): string
  {
    Join(seq(|items|, k requires 0 <= k < |items| => EncodeItem(items[k])), [ITEM_SEPARATOR])
  }

  /** Reading a list token back: split on '|', then each item on ';'. */
  function DecodeItems(s: string): (items: seq<seq<string>>)
    ensures |items| >= 1
  {
    var parts := Split(s, ITEM_SEPARATOR);
    seq(|parts|, k requires 0 <= k < |parts| => Split(parts[k], FIELD_SEPARATOR))
  }

  /** A sub-field that the encoding can carry without ambiguity: it holds neither separator. */
  predicate IsPlainField(f: string)
  {
    FIELD_SEPARATOR !in f && ITEM_SEPARATOR !in f
  }

  predicate WellFormedItems(items: seq<seq<string>>)
  {
    && |items| >= 1
    && (forall k | 0 <= k < |items| :: |items[k]| >= 1)
    && (forall k, j | 0 <= k < |items| && 0 <= j < |items[k]| :: IsPlainField(items[k][j]))
  }

  lemma {:induction false} NoItemSeparatorInItem(fields: seq<string>)
    requires forall j | 0 <= j < |fields| :: IsPlainField(fields[j])
    ensures ITEM_SEPARATOR !in EncodeItem(fields)
  {
    InJoin(fields, [FIELD_SEPARATOR], ITEM_SEPARATOR);
  }

  /** Decoding an encoded list gives back every item and every sub-field. */
  lemma DecodeEncode(items: seq<seq<string>>)
    requires WellFormedItems(items)
    ensures DecodeItems(EncodeItems(items)) == items
  {
    var encoded := seq(|items|, k requires 0 <= k < |items| => EncodeItem(items[k]));
    forall k | 0 <= k < |items| ensures ITEM_SEPARATOR !in encoded[k] {
      NoItemSeparatorInItem(items[k]);
    }
    SplitJoin(encoded, ITEM_SEPARATOR);
    forall k | 0 <= k < |items| ensures Split(encoded[k], FIELD_SEPARATOR) == items[k] {
      SplitJoin(items[k], FIELD_SEPARATOR);
    }
  }

  /** Distinct well-formed lists never share an encoding. */
  lemma EncodeInjective(a: seq<seq<string>>, b: seq<seq<string>>)
    requires WellFormedItems(a) && WellFormedItems(b)
    requires EncodeItems(a) == EncodeItems(b)
    ensures a == b
  {
    DecodeEncode(a);
    DecodeEncode(b);
  }

  /** An item with two or more sub-fields puts a ';' into the token. */
  lemma FieldSeparatorInItems(items: seq<seq<string>>, k: nat)
    requires k < |items| && |items[k]| >= 2
    ensures FIELD_SEPARATOR in EncodeItems(items)
  {
    var encoded := seq(|items|, i requires 0 <= i < |items| => EncodeItem(items[i]));
    InJoin(items[k], [FIELD_SEPARATOR], FIELD_SEPARATOR);
    assert FIELD_SEPARATOR in encoded[k];
    InJoin(encoded, [ITEM_SEPARATOR], FIELD_SEPARATOR);
  }

  /** The items of a list whose first item is preceded by the sub-fields `head`. */
  function WithHead(head: seq<string>, items: seq<seq<string>>): (r: seq<seq<string>>)
    requires |items| >= 1
    ensures |r| == |items| && r[0] == head + items[0]
    ensures forall k | 1 <= k < |r| :: r[k] == items[k]
  {
    [head + items[0]] + items[1..]
  }

  /**
   * Sub-fields written in front of a list and followed by ';' read back as leading sub-fields
   * of the list's first item.
   */
  lemma EncodeItemsWithHead(head: seq<string>, items: seq<seq<string>>)
    requires |head| >= 1 && |items| >= 1 && |items[0]| >= 1
    ensures EncodeItem(head) + [FIELD_SEPARATOR] + EncodeItems(items) == EncodeItems(WithHead(head, items))
  {
    var grouped := WithHead(head, items);
    assert grouped == [head + items[0]] + items[1..];
    var encoded := seq(|items|, k requires 0 <= k < |items| => EncodeItem(items[k]));
    var encodedGrouped := seq(|grouped|, k requires 0 <= k < |grouped| => EncodeItem(grouped[k]));
    JoinAppend(head, items[0], [FIELD_SEPARATOR]);
    assert encodedGrouped == [EncodeItem(head) + [FIELD_SEPARATOR] + encoded[0]] + encoded[1..];
    JoinExtendFirst(EncodeItem(head) + [FIELD_SEPARATOR], encoded, [ITEM_SEPARATOR]);
  }

  /** The sub-fields of each element, in order. */
  function ItemsOf<T>(xs: seq<T>, fields: T -> seq<string>): (items: seq<seq<string>>)
    ensures |items| == |xs| && forall k | 0 <= k < |xs| :: items[k] == fields(xs[k])
  {
    seq(|xs|, k requires 0 <= k < |xs| => fields(xs[k]))
  }

  /**
   * The loop of `format_campo12_lista`, `format_campo15_lista` and `format_campo7_lista`: for
   * each element in order, its sub-fields joined with ';' are appended to the formatted list,
   * which is then joined with '|'.
   */
  method EncodeEach<T>(xs: seq<T>, fields: T -> seq<string>) returns (s: string)
    ensures s == EncodeItems(ItemsOf(xs, fields))
  {
    var formatted: seq<string> := [];
    var i := 0;
    while i < |xs|
      invariant 0 <= i <= |xs|
      invariant |formatted| == i
      invariant forall k | 0 <= k < i :: formatted[k] == EncodeItem(fields(xs[k]))
    {
      formatted := formatted + [EncodeItem(fields(xs[i]))];
      i := i + 1;
    }
    ghost var items := ItemsOf(xs, fields);
    assert formatted == seq(|items|, k requires 0 <= k < |items| => EncodeItem(items[k]));
    s := Join(formatted, [ITEM_SEPARATOR]);
  }
}
