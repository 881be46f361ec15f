/** Every text of the grammar whose value repeats no key is accepted, with that
    value, and exactly that text is consumed. */
module JsonComplete {
  import opened Wrappers
  import opened Json
  import opened JsonGrammar
  import opened JsonParser

  lemma {:induction false} SkipWsPrefix(w: string, k: string)
    requires AllWs(w)
    ensures SkipWs(w + k) == SkipWs(k)
  {
    if w == "" {
      assert w + k == k;
    } else {
      assert (w + k)[1..] == w[1..] + k;
      SkipWsPrefix(w[1..], k);
    }
  }

  lemma {:induction false} SkipDigitsPrefix(d: string, k: string)
    requires AllDigits(d)
    requires k == "" || !IsDigit(k[0])
    ensures SkipDigits(d + k) == k
  {
    if d == "" {
      assert d + k == k;
    } else {
      assert (d + k)[1..] == d[1..] + k;
      SkipDigitsPrefix(d[1..], k);
    }
  }

  lemma ScanDigitsPrefix(d: string, k: string)
    requires AllDigits(d) && d != ""
    requires k == "" || !IsDigit(k[0])
    ensures ScanDigits(d + k) == Some(k)
  {
    SkipDigitsPrefix(d, k);
    assert |d + k| > |k|;
  }

  lemma EndsNumberAfterWs(w: string, k: string)
    requires AllWs(w) && EndsNumber(k)
    ensures EndsNumber(w + k)
  {
    if w == "" {
      assert w + k == k;
    } else {
      assert (w + k)[0] == w[0];
    }
  }

  // ------------------------------------------------------------------ strings

  lemma Hex4Complete(h: string, k: string)
    requires IsHex4(h)
    ensures ParseHex4(h + k) == Good(Hex4Value(h), k)
  {
    assert (h + k)[..4] == h && (h + k)[4..] == k;
  }

  lemma UnicodeComplete(i: StrItem, k: string)
    requires ItemOk(i) && (i.Unicode? || i.Surrogates?)
    ensures ParseUnicode(ShowItem(i, k)[2..]) == Good(ItemMeaning(i), k)
  {
    match i
    case Unicode(h) =>
      assert ShowItem(i, k)[2..] == h + k;
      Hex4Complete(h, k);
    case Surrogates(h, l) =>
      var tail := "\\u" + (l + k);
      assert ShowItem(i, k)[2..] == h + tail;
      Hex4Complete(h, tail);
      assert tail[2..] == l + k;
      Hex4Complete(l, k);
  }

  lemma EscapeComplete(i: StrItem, k: string)
    requires ItemOk(i) && !i.Raw?
    ensures ShowItem(i, k) != "" && ShowItem(i, k)[0] == '\\'
    ensures ParseEscape(ShowItem(i, k)[1..]) == Good(ItemMeaning(i), k)
  {
    var s := ShowItem(i, k);
    if i.Short? {
      assert s[1..] == [i.letter] + k;
      assert s[1..][1..] == k;
    } else {
      assert s[1..][0] == 'u';
      assert s[1..][1..] == s[2..];
      UnicodeComplete(i, k);
    }
  }

  lemma {:induction false} BodyComplete(items: seq<StrItem>, k: string, out: string)
    requires ItemsOk(items)
    ensures ParseBody(ShowBody(items, k), out) == Good(out + ItemsMeaning(items), k)
    decreases items
  {
    if items == [] {
      assert ("\"" + k)[1..] == k;
      assert out + "" == out;
    } else {
      var c := ItemMeaning(items[0]);
      var tail := ShowBody(items[1..], k);
      BodyComplete(items[1..], k, out + [c]);
      assert out + [c] + ItemsMeaning(items[1..]) == out + ItemsMeaning(items);
      if items[0].Raw? {
        assert ShowItem(items[0], tail)[1..] == tail;
      } else {
        EscapeComplete(items[0], tail);
      }
    }
  }

  lemma StringComplete(items: seq<StrItem>, k: string)
    requires ItemsOk(items)
    ensures ParseString(ShowString(items, k)) == Good(ItemsMeaning(items), k)
  {
    assert ShowString(items, k)[1..] == ShowBody(items, k);
    BodyComplete(items, k, "");
    assert "" + ItemsMeaning(items) == ItemsMeaning(items);
  }

  // ------------------------------------------------------------------ numbers

  lemma ExpComplete(e: Option<Exponent>, k: string)
    requires e.Some? ==> ExponentOk(e.value)
    requires EndsNumber(k)
    ensures ScanExp(ShowExp(e, k)) == Some(k)
  {
    if e.Some? {
      var s := ShowExp(e, k);
      var digits := e.value.digits + k;
      assert s[1..] == e.value.sign + digits;
      assert digits[0] == e.value.digits[0];
      assert SkipSign(s[1..]) == digits;
      ScanDigitsPrefix(e.value.digits, k);
    }
  }

  lemma FracComplete(f: Option<string>, k: string)
    requires f.Some? ==> f.value != "" && AllDigits(f.value)
    requires k == "" || (!IsDigit(k[0]) && k[0] != '.')
    ensures ScanFrac(ShowFrac(f, k)) == Some(k)
  {
    if f.Some? {
      assert ShowFrac(f, k)[1..] == f.value + k;
      ScanDigitsPrefix(f.value, k);
    }
  }

  lemma WholeComplete(whole: string, k: string)
    requires WholeOk(whole)
    requires k == "" || !IsDigit(k[0])
    ensures ScanWhole(whole + k) == Some(k)
  {
    var s := whole + k;
    assert s[0] == whole[0];
    if whole == "0" {
      assert s[1..] == k;
    } else {
      assert s[1..] == whole[1..] + k;
      SkipDigitsPrefix(whole[1..], k);
    }
  }

  lemma ShowNumberAppends(n: NumberParts, k: string)
    ensures ShowNumber(n, k) == ShowNumber(n, "") + k
  {
    assert ShowExp(n.exp, k) == ShowExp(n.exp, "") + k;
    assert ShowFrac(n.frac, ShowExp(n.exp, k)) == ShowFrac(n.frac, ShowExp(n.exp, "")) + k;
  }

  lemma TailsComplete(n: NumberParts, k: string)
    requires NumberOk(n) && EndsNumber(k)
    ensures var s2 := ShowExp(n.exp, k);
            var s1 := ShowFrac(n.frac, s2);
            && ScanWhole(n.whole + s1) == Some(s1)
            && ScanFrac(s1) == Some(s2)
            && ScanExp(s2) == Some(k)
  {
    var s2 := ShowExp(n.exp, k);
    var s1 := ShowFrac(n.frac, s2);
    assert n.exp.Some? ==> s2[0] == n.exp.value.mark;
    assert n.frac.Some? ==> s1[0] == '.';
    WholeComplete(n.whole, s1);
    FracComplete(n.frac, s2);
    ExpComplete(n.exp, k);
  }

  lemma MinusComplete(n: NumberParts, k: string)
    requires NumberOk(n)
    ensures SkipMinus(ShowNumber(n, k)) == n.whole + ShowFrac(n.frac, ShowExp(n.exp, k))
  {
    var body := n.whole + ShowFrac(n.frac, ShowExp(n.exp, k));
    assert body[0] == n.whole[0];
    assert "" + body == body && ("-" + body)[1..] == body;
  }

  lemma NumberComplete(n: NumberParts, k: string)
    requires NumberOk(n) && EndsNumber(k)
    ensures ParseNumber(ShowNumber(n, k)) == Good(Number(ShowNumber(n, "")), k)
  {
    var s := ShowNumber(n, k);
    MinusComplete(n, k);
    TailsComplete(n, k);
    assert ScanNumber(s) == Some(k);
    ShowNumberAppends(n, k);
    assert s == ShowNumber(n, "") + k;
  }

  // ------------------------------------------------------------------- values

  /** The first character of a value's text; it decides the parser's branch. */
  function Lead(t: Tree): char
    requires TreeOk(t)
  {
    match t
    case TNull => 'n'
    case TBool(b) => if b then 't' else 'f'
    case TNumber(n) => if n.negative then '-' else n.whole[0]
    case TString(_) => '\"'
    case TArray(_, _) => '['
    case TObject(_, _) => '{'
  }

  lemma ShowLead(t: Tree, k: string)
    requires TreeOk(t)
    ensures Show(t, k) != "" && Show(t, k)[0] == Lead(t) && !IsWs(Lead(t))
  {
    if t.TNumber? {
      var n := t.parts;
      assert ShowNumber(n, k)[0] == Lead(t);
    }
  }

  lemma SkipWsValue(w: string, t: Tree, k: string)
    requires AllWs(w) && TreeOk(t)
    ensures SkipWs(w + Show(t, k)) == Show(t, k)
  {
    SkipWsPrefix(w, Show(t, k));
    ShowLead(t, k);
  }

  lemma LiteralComplete(literal: string, v: JsonValue, k: string)
    requires literal != ""
    ensures ParseLiteral(literal + k, literal, v) == Good(v, k)
  {
    assert literal <= literal + k;
    assert (literal + k)[|literal|..] == k;
  }

  lemma ScalarComplete(t: Tree, k: string)
    requires TreeOk(t) && !t.TArray? && !t.TObject?
    requires t.TNumber? ==> EndsNumber(k)
    ensures ParseScalar(Show(t, k)) == Good(Meaning(t), k)
  {
    ShowLead(t, k);
    match t
    case TNull => LiteralComplete("null", Null, k);
    case TBool(b) => LiteralComplete(if b then "true" else "false", Bool(b), k);
    case TNumber(n) => NumberComplete(n, k);
    case TString(items) => StringComplete(items, k);
  }

  lemma {:induction false} ValueComplete(t: Tree, w: string, k: string)
    requires TreeOk(t) && AllWs(w) && NoDuplicates(Meaning(t))
    requires t.TNumber? ==> EndsNumber(k)
    ensures ParseValue(w + Show(t, k)) == Good(Meaning(t), k)
    decreases t, 1
  {
    SkipWsValue(w, t, k);
    ShowLead(t, k);
    var s := Show(t, k);
    match t
    case TArray(gap, elems) =>
      if elems == [] {
        assert s[1..] == gap + ("]" + k);
        SkipWsPrefix(gap, "]" + k);
        assert ("]" + k)[1..] == k;
      } else {
        assert s[1..] == ShowElems(elems, k);
        ArrayComplete(elems, k);
      }
    case TObject(gap, entries) =>
      if entries == [] {
        assert s[1..] == gap + ("}" + k);
        SkipWsPrefix(gap, "}" + k);
        assert ("}" + k)[1..] == k;
      } else {
        assert s[1..] == ShowEntries(entries, k);
        ObjectComplete(entries, k);
      }
    case _ => ScalarComplete(t, k);
  }

  /** The text of an element list, less the whitespace that the caller may skip. */
  lemma ShowElemsSplit(elems: seq<Elem>, k: string) returns (tail: string)
    requires elems != [] && ElemsOk(elems)
    ensures tail == if |elems| == 1 then "]" + k else "," + ShowElems(elems[1..], k)
    ensures tail[1..] == if |elems| == 1 then k else ShowElems(elems[1..], k)
    ensures ShowElems(elems, k) == elems[0].before + Show(elems[0].value, elems[0].after + tail)
    ensures ElemOk(elems[0]) && ElemsOk(elems[1..])
    ensures EndsNumber(elems[0].after + tail) && SkipWs(elems[0].after + tail) == tail
  {
    tail := if |elems| == 1 then "]" + k else "," + ShowElems(elems[1..], k);
    assert ElemOk(elems[0]);
    assert ShowElems(elems, k) == ShowElem(elems[0], tail);
    EndsNumberAfterWs(elems[0].after, tail);
    SkipWsPrefix(elems[0].after, tail);
  }

  lemma {:induction false} ArrayComplete(elems: seq<Elem>, k: string)
    requires elems != [] && ElemsOk(elems)
    requires forall i :: 0 <= i < |ElemsMeaning(elems)| ==> NoDuplicates(ElemsMeaning(elems)[i])
    ensures ParseArray(ShowElems(elems, k)) == Good(Array(ElemsMeaning(elems)), k)
    decreases elems, 1
  {
    var tail := ShowElemsSplit(elems, k);
    var body := Show(elems[0].value, elems[0].after + tail);
    SkipWsValue(elems[0].before, elems[0].value, elems[0].after + tail);
    ShowLead(elems[0].value, elems[0].after + tail);
    LeadIsNoCloser(elems[0].value);
    ElemsComplete(elems, "", k, []);
    assert [] + ElemsMeaning(elems) == ElemsMeaning(elems);
    assert "" + body == body;
  }

  lemma LeadIsNoCloser(t: Tree)
    requires TreeOk(t)
    ensures Lead(t) != ']' && Lead(t) != '}'
  {
    if t.TNumber? {
      assert t.parts.negative || IsDigit(t.parts.whole[0]);
    }
  }

  /** The element loop; `w` stands for whatever is left of the leading whitespace. */
  lemma {:induction false} ElemsComplete(elems: seq<Elem>, w: string, k: string, acc: seq<JsonValue>)
    requires elems != [] && ElemsOk(elems) && AllWs(w)
    requires forall i :: 0 <= i < |ElemsMeaning(elems)| ==> NoDuplicates(ElemsMeaning(elems)[i])
    ensures var tail := if |elems| == 1 then "]" + k else "," + ShowElems(elems[1..], k);
            ParseElems(w + Show(elems[0].value, elems[0].after + tail), acc) == Good(Array(acc + ElemsMeaning(elems)), k)
    decreases elems, 0
  {
    var tail := ShowElemsSplit(elems, k);
    var v := Meaning(elems[0].value);
    assert v == ElemsMeaning(elems)[0];
    ElemComplete(elems[0], w, tail, acc);
    if |elems| == 1 {
      assert acc + ElemsMeaning(elems) == acc + [v];
    } else {
      var rest := elems[1..];
      assert ElemsMeaning(rest) == ElemsMeaning(elems)[1..];
      Associative(acc, [v], ElemsMeaning(rest));
      var _ := ShowElemsSplit(rest, k);
      ElemsComplete(rest, rest[0].before, k, acc + [v]);
    }
  }

  /** One turn of the element loop, up to the separator. */
  lemma {:induction false} ElemComplete(e: Elem, w: string, tail: string, acc: seq<JsonValue>)
    requires ElemOk(e) && AllWs(w) && NoDuplicates(Meaning(e.value))
    requires tail != "" && (tail[0] == ',' || tail[0] == ']')
    ensures var acc' := acc + [Meaning(e.value)];
            ParseElems(w + Show(e.value, e.after + tail), acc)
              == if tail[0] == ',' then ParseElems(tail[1..], acc') else Good(Array(acc'), tail[1..])
    decreases e
  {
    EndsNumberAfterWs(e.after, tail);
    SkipWsPrefix(e.after, tail);
    ValueComplete(e.value, w, e.after + tail);
  }

  lemma ShowEntriesSplit(entries: seq<Entry>, k: string) returns (tail: string, body: string)
    requires entries != [] && EntriesOk(entries)
    ensures tail == if |entries| == 1 then "}" + k else "," + ShowEntries(entries[1..], k)
    ensures tail[1..] == if |entries| == 1 then k else ShowEntries(entries[1..], k)
    ensures var e := entries[0];
            && EntryOk(e) && EntriesOk(entries[1..]) && ElemOk(e.elem)
            && body == e.elem.before + Show(e.elem.value, e.elem.after + tail)
            && ShowEntries(entries, k) == e.before + ShowString(e.key, e.middle + (":" + body))
            && EndsNumber(e.elem.after + tail) && SkipWs(e.elem.after + tail) == tail
  {
    var e := entries[0];
    tail := if |entries| == 1 then "}" + k else "," + ShowEntries(entries[1..], k);
    body := ShowElem(e.elem, tail);
    assert EntryOk(e) && ElemOk(e.elem);
    assert ShowEntries(entries, k) == ShowEntry(e, tail);
    EndsNumberAfterWs(e.elem.after, tail);
    SkipWsPrefix(e.elem.after, tail);
  }

  lemma KeyComplete(w: string, key: seq<StrItem>, middle: string, body: string)
    requires AllWs(w) && ItemsOk(key) && AllWs(middle)
    ensures ParseKey(w + ShowString(key, middle + (":" + body))) == Good(ItemsMeaning(key), body)
  {
    var rest := middle + (":" + body);
    SkipWsPrefix(w, ShowString(key, rest));
    StringComplete(key, rest);
    SkipWsPrefix(middle, ":" + body);
    assert (":" + body)[1..] == body;
  }

  lemma {:induction false} ObjectComplete(entries: seq<Entry>, k: string)
    requires entries != [] && EntriesOk(entries)
    requires NoDuplicates(Object(EntriesMeaning(entries)))
    ensures ParseObject(ShowEntries(entries, k)) == Good(Object(EntriesMeaning(entries)), k)
    decreases entries, 1
  {
    var tail, body := ShowEntriesSplit(entries, k);
    var e := entries[0];
    var text := ShowString(e.key, e.middle + (":" + body));
    SkipWsPrefix(e.before, text);
    assert SkipWs(ShowEntries(entries, k)) == text;
    assert [] + EntriesMeaning(entries) == EntriesMeaning(entries);
    assert "" + text == text;
    MembersComplete(entries, "", k, []);
  }

  lemma {:induction false} MembersComplete(entries: seq<Entry>, w: string, k: string, acc: seq<Member>)
    requires entries != [] && EntriesOk(entries) && AllWs(w)
    requires DistinctKeys(acc + EntriesMeaning(entries))
    requires forall i :: 0 <= i < |EntriesMeaning(entries)| ==> NoDuplicates(EntriesMeaning(entries)[i].value)
    ensures var tail := if |entries| == 1 then "}" + k else "," + ShowEntries(entries[1..], k);
            var e := entries[0];
            ParseMembers(w + ShowString(e.key, e.middle + (":" + ShowElem(e.elem, tail))), acc)
              == Good(Object(acc + EntriesMeaning(entries)), k)
    decreases entries, 0
  {
    var tail, body := ShowEntriesSplit(entries, k);
    var e := entries[0];
    var m := Member(ItemsMeaning(e.key), Meaning(e.elem.value));
    EntriesUncons(entries);
    assert EntriesMeaning(entries)[0] == m;
    KeyIsNew(acc, EntriesMeaning(entries));
    MemberComplete(e, w, tail, acc);
    if |entries| == 1 {
      assert acc + EntriesMeaning(entries) == acc + [m];
    } else {
      var rest := entries[1..];
      Associative(acc, [m], EntriesMeaning(rest));
      assert EntriesMeaning(rest) == EntriesMeaning(entries)[1..];
      var _, _ := ShowEntriesSplit(rest, k);
      MembersComplete(rest, rest[0].before, k, acc + [m]);
    }
  }

  lemma EntriesUncons(entries: seq<Entry>)
    requires entries != [] && EntriesOk(entries)
    ensures EntryOk(entries[0]) && ElemOk(entries[0].elem) && EntriesOk(entries[1..])
    ensures EntriesMeaning(entries)
         == [Member(ItemsMeaning(entries[0].key), Meaning(entries[0].elem.value))] + EntriesMeaning(entries[1..])
    ensures |entries| == 1 ==> EntriesMeaning(entries[1..]) == []
  {
    assert EntryOk(entries[0]) && ElemOk(entries[0].elem);
  }

  /** One turn of the member loop, up to the separator. */
  lemma {:induction false} MemberComplete(e: Entry, w: string, tail: string, acc: seq<Member>)
    requires EntryOk(e) && ElemOk(e.elem) && AllWs(w)
    requires tail != "" && (tail[0] == ',' || tail[0] == '}')
    requires NoDuplicates(Meaning(e.elem.value)) && !HasKey(acc, ItemsMeaning(e.key))
    ensures var s := w + ShowString(e.key, e.middle + (":" + ShowElem(e.elem, tail)));
            var acc' := acc + [Member(ItemsMeaning(e.key), Meaning(e.elem.value))];
            ParseMembers(s, acc) == if tail[0] == ',' then ParseMembers(tail[1..], acc')
                                    else Good(Object(acc'), tail[1..])
    decreases e
  {
    EndsNumberAfterWs(e.elem.after, tail);
    SkipWsPrefix(e.elem.after, tail);
    KeyComplete(w, e.key, e.middle, ShowElem(e.elem, tail));
    ValueComplete(e.elem.value, e.elem.before, e.elem.after + tail);
  }

  lemma KeyIsNew(acc: seq<Member>, more: seq<Member>)
    requires more != [] && DistinctKeys(acc + more)
    ensures !HasKey(acc, more[0].key)
  {
    var all := acc + more;
    assert all[|acc|] == more[0];
    forall i | 0 <= i < |acc| ensures acc[i].key != more[0].key {
      assert all[i] == acc[i];
    }
  }
}
