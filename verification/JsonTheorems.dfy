/** The parser decides exactly the grammar, and undoes each of the printers. */
module JsonTheorems {
  import opened Wrappers
  import opened Json
  import opened JsonGrammar
  import opened JsonParser
  import opened JsonComplete
  import opened JsonSound

  /** `text` is one value of the grammar with whitespace around it, and means `v`. */
  ghost predicate Denotes(text: string, v: JsonValue) {
    exists w1, t, w2 :: Spells(text, v, w1, t, w2)
  }

  ghost predicate Spells(text: string, v: JsonValue, w1: string, t: Tree, w2: string) {
    AllWs(w1) && TreeOk(t) && AllWs(w2) && text == w1 + Show(t, w2) && Meaning(t) == v
  }

  /** The decoder accepts a text with value `v` exactly when the grammar gives the
      text that value and no object in it repeats a decoded key. */
  lemma DecodeIsGrammar(text: string, v: JsonValue)
    ensures DecodeValue(text) == Ok(v) <==> Denotes(text, v) && NoDuplicates(v)
  {
    if DecodeValue(text) == Ok(v) {
      var w1, t := ValueSound(text);
      var w2 := ParseValue(text).rest;
      var w := SkipWsSplit(w2);
      assert w2 == w + "" == w;
      assert Spells(text, v, w1, t, w2);
    }
    if Denotes(text, v) && NoDuplicates(v) {
      var w1, t, w2 :| Spells(text, v, w1, t, w2);
      assert w2 + "" == w2;
      EndsNumberAfterWs(w2, "");
      ValueComplete(t, w1, w2);
      SkipWsPrefix(w2, "");
    }
  }

  /** A text has at most one value: the grammar is unambiguous wherever no key repeats. */
  lemma GrammarIsFunctional(text: string, v1: JsonValue, v2: JsonValue)
    requires Denotes(text, v1) && NoDuplicates(v1)
    requires Denotes(text, v2) && NoDuplicates(v2)
    ensures v1 == v2
  {
    DecodeIsGrammar(text, v1);
    DecodeIsGrammar(text, v2);
  }

  // --------------------------------------------------------------- round trip

  /** Every number in `v` is spelled as the grammar allows. */
  ghost predicate LegalNumbers(v: JsonValue)
    decreases v
  {
    match v
    case Number(lexeme) => IsLexeme(lexeme)
    case Array(items) => forall i :: 0 <= i < |items| ==> LegalNumbers(items[i])
    case Object(fields) => forall i :: 0 <= i < |fields| ==> LegalNumbers(fields[i].value)
    case _ => true
  }

  ghost predicate Printable(v: JsonValue) {
    LegalNumbers(v) && NoDuplicates(v)
  }

  function ItemOf(style: Style, c: char): StrItem {
    if c == '\"' || c == '\\' then Short(c)
    else if c == '\n' then Short('n')
    else if c == '\r' then Short('r')
    else if c == '\t' then Short('t')
    else if style.Compatible? && c == '\U{08}' then Short('b')
    else if style.Compatible? && c == '\U{0C}' then Short('f')
    else if c as int < 0x20 || (style.Server? && IsControl(c)) then Unicode(UnicodeEscape(c)[2..])
    else Raw(c)
  }

  lemma HexDigitValue(n: nat)
    requires n < 16
    ensures IsHex(HexDigit(n)) && HexValue(HexDigit(n)) == n
  {
  }

  lemma UnicodeEscapeMeans(c: char)
    requires c as int < 0x100
    ensures var h := UnicodeEscape(c)[2..];
            IsHex4(h) && Hex4Value(h) == c as int && UnicodeEscape(c) == "\\u" + h
  {
    HexDigitValue(c as int / 16);
    HexDigitValue(c as int % 16);
    var h := UnicodeEscape(c)[2..];
    assert h == "00" + [HexDigit(c as int / 16), HexDigit(c as int % 16)];
  }

  lemma ItemOfMeans(style: Style, c: char, k: string)
    ensures ItemOk(ItemOf(style, c)) && ItemMeaning(ItemOf(style, c)) == c
    ensures ShowItem(ItemOf(style, c), k) == EscapeChar(style, c) + k
  {
    if c as int < 0x100 {
      UnicodeEscapeMeans(c);
    }
  }

  function ItemsOf(style: Style, s: string): (items: seq<StrItem>)
    ensures |items| == |s|
  {
    if s == "" then [] else [ItemOf(style, s[0])] + ItemsOf(style, s[1..])
  }

  lemma {:induction false} ItemsOfMeans(style: Style, s: string, k: string)
    ensures ItemsOk(ItemsOf(style, s)) && ItemsMeaning(ItemsOf(style, s)) == s
    ensures ShowBody(ItemsOf(style, s), k) == Escape(style, s) + ("\"" + k)
  {
    if s != "" {
      var items, rest := ItemsOf(style, s), ItemsOf(style, s[1..]);
      ItemsOfMeans(style, s[1..], k);
      ItemOfMeans(style, s[0], ShowBody(rest, k));
      assert items[1..] == rest;
      assert s == [s[0]] + s[1..];
      Associative(EscapeChar(style, s[0]), Escape(style, s[1..]), "\"" + k);
    }
  }

  lemma QuoteShows(style: Style, s: string, k: string)
    ensures ShowString(ItemsOf(style, s), k) == Quote(style, s) + k
  {
    ItemsOfMeans(style, s, k);
    assert "\"" + (Escape(style, s) + ("\"" + k)) == Quote(style, s) + k;
  }

  /** The tree whose text the printer writes. */
  ghost function TreeOf(style: Style, v: JsonValue): Tree
    requires LegalNumbers(v)
    decreases v
  {
    match v
    case Null => TNull
    case Bool(b) => TBool(b)
    case Number(lexeme) => var n :| NumberOk(n) && ShowNumber(n, "") == lexeme; TNumber(n)
    case String(s) => TString(ItemsOf(style, s))
    case Array(items) => TArray("", ElemsOf(style, items))
    case Object(fields) => TObject("", EntriesOf(style, fields))
  }

  ghost function ElemsOf(style: Style, items: seq<JsonValue>): (elems: seq<Elem>)
    requires forall i :: 0 <= i < |items| ==> LegalNumbers(items[i])
    ensures |elems| == |items|
    decreases items
  {
    if items == [] then [] else [Elem("", TreeOf(style, items[0]), "")] + ElemsOf(style, items[1..])
  }

  ghost function EntriesOf(style: Style, fields: seq<Member>): (entries: seq<Entry>)
    requires forall i :: 0 <= i < |fields| ==> LegalNumbers(fields[i].value)
    ensures |entries| == |fields|
    decreases fields
  {
    if fields == [] then []
    else
      var f := fields[0];
      [Entry("", ItemsOf(style, f.key), "", Elem("", TreeOf(style, f.value), ""))] + EntriesOf(style, fields[1..])
  }

  lemma {:induction false} TreeOfMeans(style: Style, v: JsonValue)
    requires LegalNumbers(v)
    ensures TreeOk(TreeOf(style, v)) && Meaning(TreeOf(style, v)) == v
    decreases v
  {
    match v
    case String(s) => ItemsOfMeans(style, s, "");
    case Array(items) => ElemsOfMeans(style, items);
    case Object(fields) => EntriesOfMeans(style, fields);
    case _ =>
  }

  lemma {:induction false} ElemsOfMeans(style: Style, items: seq<JsonValue>)
    requires forall i :: 0 <= i < |items| ==> LegalNumbers(items[i])
    ensures ElemsOk(ElemsOf(style, items)) && ElemsMeaning(ElemsOf(style, items)) == items
    decreases items
  {
    if items != [] {
      TreeOfMeans(style, items[0]);
      ElemsOfMeans(style, items[1..]);
      var elems := ElemsOf(style, items);
      assert ElemOk(elems[0]) && elems[1..] == ElemsOf(style, items[1..]);
    }
  }

  lemma {:induction false} EntriesOfMeans(style: Style, fields: seq<Member>)
    requires forall i :: 0 <= i < |fields| ==> LegalNumbers(fields[i].value)
    ensures EntriesOk(EntriesOf(style, fields)) && EntriesMeaning(EntriesOf(style, fields)) == fields
    decreases fields
  {
    if fields != [] {
      TreeOfMeans(style, fields[0].value);
      EntriesOfMeans(style, fields[1..]);
      ItemsOfMeans(style, fields[0].key, "");
      var entries := EntriesOf(style, fields);
      assert ElemOk(entries[0].elem) && EntryOk(entries[0]);
      assert entries[1..] == EntriesOf(style, fields[1..]);
      EntriesUncons(entries);
    }
  }

  lemma Enclosed(a: string, b: string, c: string, k: string)
    ensures a + (b + (c + k)) == a + b + c + k
  {
  }

  lemma {:induction false} EncodeShows(style: Style, v: JsonValue, k: string)
    requires LegalNumbers(v)
    ensures Show(TreeOf(style, v), k) == Encode(style, v) + k
    decreases v, 2
  {
    match v
    case Number(_) => ShowNumberAppends(TreeOf(style, v).parts, k);
    case String(s) => QuoteShows(style, s, k);
    case Array(items) => EncodeArrayShows(style, items, k);
    case Object(fields) => EncodeObjectShows(style, fields, k);
    case _ =>
  }

  lemma {:induction false} EncodeArrayShows(style: Style, items: seq<JsonValue>, k: string)
    requires forall i :: 0 <= i < |items| ==> LegalNumbers(items[i])
    ensures Show(TArray("", ElemsOf(style, items)), k) == "[" + EncodeItems(style, items) + "]" + k
    decreases items, 1
  {
    if items == [] {
      assert "" + ("]" + k) == "]" + k;
    } else {
      EncodeItemsShows(style, items, k);
    }
    Enclosed("[", EncodeItems(style, items), "]", k);
  }

  lemma {:induction false} EncodeObjectShows(style: Style, fields: seq<Member>, k: string)
    requires forall i :: 0 <= i < |fields| ==> LegalNumbers(fields[i].value)
    ensures Show(TObject("", EntriesOf(style, fields)), k) == "{" + EncodeFields(style, fields) + "}" + k
    decreases fields, 1
  {
    if fields == [] {
      assert "" + ("}" + k) == "}" + k;
    } else {
      EncodeFieldsShows(style, fields, k);
    }
    Enclosed("{", EncodeFields(style, fields), "}", k);
  }

  lemma {:induction false} EncodeItemsShows(style: Style, items: seq<JsonValue>, k: string)
    requires items != [] && forall i :: 0 <= i < |items| ==> LegalNumbers(items[i])
    ensures ShowElems(ElemsOf(style, items), k) == EncodeItems(style, items) + ("]" + k)
    decreases items, 0
  {
    var elems := ElemsOf(style, items);
    var tail := if |items| == 1 then "]" + k else "," + (EncodeItems(style, items[1..]) + ("]" + k));
    if |items| > 1 {
      EncodeItemsShows(style, items[1..], k);
    }
    assert elems[1..] == ElemsOf(style, items[1..]);
    assert ShowElems(elems, k) == ShowElem(elems[0], tail);
    EncodeShows(style, items[0], tail);
    ElemShows(elems[0], Encode(style, items[0]), tail);
  }

  lemma ElemShows(e: Elem, text: string, tail: string)
    requires e.before == "" && e.after == "" && Show(e.value, tail) == text + tail
    ensures ShowElem(e, tail) == text + tail
  {
    assert "" + tail == tail;
  }

  lemma {:induction false} EncodeFieldsShows(style: Style, fields: seq<Member>, k: string)
    requires fields != [] && forall i :: 0 <= i < |fields| ==> LegalNumbers(fields[i].value)
    ensures ShowEntries(EntriesOf(style, fields), k) == EncodeFields(style, fields) + ("}" + k)
    decreases fields, 0
  {
    var entries := EntriesOf(style, fields);
    var tail := if |fields| == 1 then "}" + k else "," + (EncodeFields(style, fields[1..]) + ("}" + k));
    if |fields| > 1 {
      EncodeFieldsShows(style, fields[1..], k);
    }
    assert entries[1..] == EntriesOf(style, fields[1..]);
    assert ShowEntries(entries, k) == ShowEntry(entries[0], tail);
    EncodeFieldShows(style, fields[0], TreeOf(style, fields[0].value), tail);
    FieldsFrom(style, fields, k);
  }

  /** The text of a member list, taken apart after its first member. */
  lemma FieldsFrom(style: Style, fields: seq<Member>, k: string)
    requires fields != []
    ensures EncodeFields(style, fields) + ("}" + k)
         == EncodeField(style, fields[0]) + if |fields| == 1 then "}" + k else "," + (EncodeFields(style, fields[1..]) + ("}" + k))
  {
    if |fields| > 1 {
      Enclosed(EncodeField(style, fields[0]), ",", EncodeFields(style, fields[1..]), "}" + k);
    }
  }

  lemma {:induction false} EncodeFieldShows(style: Style, f: Member, t: Tree, tail: string)
    requires LegalNumbers(f.value) && t == TreeOf(style, f.value)
    ensures ShowEntry(Entry("", ItemsOf(style, f.key), "", Elem("", t, "")), tail) == EncodeField(style, f) + tail
    decreases f, 3
  {
    EncodeShows(style, f.value, tail);
    EntryShows(style, f.key, Elem("", t, ""), Encode(style, f.value), tail);
  }

  lemma EntryShows(style: Style, key: string, e: Elem, text: string, tail: string)
    requires e.before == "" && e.after == "" && Show(e.value, tail) == text + tail
    ensures ShowEntry(Entry("", ItemsOf(style, key), "", e), tail) == Quote(style, key) + ":" + text + tail
  {
    ElemShows(e, text, tail);
    var rest := ":" + (text + tail);
    QuoteShows(style, key, rest);
    assert "" + rest == rest;
    var entry := ShowString(ItemsOf(style, key), rest);
    assert "" + entry == entry;
    Enclosed(Quote(style, key), ":", text, tail);
  }

  /** Parsing printed text gives the value back and stops at its end. */
  lemma ParseEncode(style: Style, v: JsonValue, k: string)
    requires Printable(v)
    requires v.Number? ==> EndsNumber(k)
    ensures ParseValue(Encode(style, v) + k) == Good(v, k)
  {
    var t := TreeOf(style, v);
    TreeOfMeans(style, v);
    EncodeShows(style, v, k);
    assert "" + Show(t, k) == Show(t, k);
    ValueComplete(t, "", k);
  }

  /** Each adapter's `encode`, read back by `decode_json_value`. */
  lemma EncodeRoundTrip(style: Style, v: JsonValue)
    requires Printable(v)
    ensures DecodeValue(Encode(style, v)) == Ok(v)
  {
    ParseEncode(style, v, "");
    assert Encode(style, v) + "" == Encode(style, v);
  }

  /** Distinct printable values never print alike. */
  lemma EncodeInjective(style: Style, v1: JsonValue, v2: JsonValue)
    requires Printable(v1) && Printable(v2) && Encode(style, v1) == Encode(style, v2)
    ensures v1 == v2
  {
    EncodeRoundTrip(style, v1);
    EncodeRoundTrip(style, v2);
  }

  /** A quoted string, whatever the escaping table, reads back as itself. */
  lemma QuoteRoundTrip(style: Style, s: string, k: string)
    ensures ParseString(Quote(style, s) + k) == Good(s, k)
  {
    ItemsOfMeans(style, s, k);
    QuoteShows(style, s, k);
    StringComplete(ItemsOf(style, s), k);
  }

  /** Parsed values are printable, so printing and re-reading what was parsed is the identity. */
  lemma ReprintRoundTrip(style: Style, text: string, v: JsonValue)
    requires DecodeValue(text) == Ok(v)
    ensures Printable(v) && DecodeValue(Encode(style, v)) == Ok(v)
  {
    DecodeIsGrammar(text, v);
    var w1, t, w2 :| Spells(text, v, w1, t, w2);
    MeaningIsLegal(t);
    EncodeRoundTrip(style, v);
  }

  lemma {:induction false} MeaningIsLegal(t: Tree)
    requires TreeOk(t)
    ensures LegalNumbers(Meaning(t))
    decreases t
  {
    match t
    case TArray(_, elems) => ElemsLegal(elems);
    case TObject(_, entries) => EntriesLegal(entries);
    case _ =>
  }

  lemma {:induction false} ElemsLegal(elems: seq<Elem>)
    requires ElemsOk(elems)
    ensures forall i :: 0 <= i < |ElemsMeaning(elems)| ==> LegalNumbers(ElemsMeaning(elems)[i])
    decreases elems
  {
    if elems != [] {
      assert ElemOk(elems[0]);
      MeaningIsLegal(elems[0].value);
      ElemsLegal(elems[1..]);
    }
  }

  lemma {:induction false} EntriesLegal(entries: seq<Entry>)
    requires EntriesOk(entries)
    ensures forall i :: 0 <= i < |EntriesMeaning(entries)| ==> LegalNumbers(EntriesMeaning(entries)[i].value)
    decreases entries
  {
    if entries != [] {
      EntriesUncons(entries);
      MeaningIsLegal(entries[0].elem.value);
      EntriesLegal(entries[1..]);
    }
  }
}
