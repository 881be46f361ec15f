/** Whatever the parser accepts is a text of the grammar, and the value it
    returns is the meaning of that text and repeats no key at any depth. */
module JsonSound {
  import opened Wrappers
  import opened Json
  import opened JsonGrammar
  import opened JsonParser
  import opened JsonComplete

  lemma {:induction false} SkipWsSplit(s: string) returns (w: string)
    ensures AllWs(w) && s == w + SkipWs(s)
    ensures SkipWs(s) == "" || !IsWs(SkipWs(s)[0])
  {
    if s != "" && IsWs(s[0]) {
      var rest := SkipWsSplit(s[1..]);
      w := [s[0]] + rest;
    } else {
      w := "";
    }
  }

  lemma {:induction false} SkipDigitsSplit(s: string) returns (d: string)
    ensures AllDigits(d) && s == d + SkipDigits(s)
    ensures SkipDigits(s) != s ==> d != ""
  {
    if s != "" && IsDigit(s[0]) {
      var rest := SkipDigitsSplit(s[1..]);
      d := [s[0]] + rest;
    } else {
      d := "";
    }
  }

  // ------------------------------------------------------------------ strings

  lemma UnicodeSound(s: string) returns (i: StrItem)
    requires ParseUnicode(s).Good?
    ensures ItemOk(i) && ItemMeaning(i) == ParseUnicode(s).value
    ensures ShowItem(i, ParseUnicode(s).rest) == "\\u" + s
  {
    var h, rest := s[..4], s[4..];
    if IsHigh(Hex4Value(h)) {
      var l, rest2 := rest[2..][..4], rest[2..][4..];
      i := Surrogates(h, l);
      assert rest == "\\u" + (l + rest2);
      assert s == h + ("\\u" + (l + rest2));
    } else {
      i := Unicode(h);
      assert s == h + rest;
    }
  }

  lemma EscapeSound(s: string) returns (i: StrItem)
    requires ParseEscape(s).Good?
    ensures ItemOk(i) && ItemMeaning(i) == ParseEscape(s).value
    ensures ShowItem(i, ParseEscape(s).rest) == "\\" + s
  {
    if s[0] == 'u' {
      i := UnicodeSound(s[1..]);
      assert "\\" + s == "\\u" + s[1..];
    } else {
      i := Short(s[0]);
      assert s == [s[0]] + s[1..];
    }
  }

  /** One character or escape of a string. */
  lemma BodyStep(s: string, out: string) returns (i: StrItem, tail: string)
    requires ParseBody(s, out).Good? && s[0] != '\"'
    ensures ItemOk(i) && s == ShowItem(i, tail) && |tail| < |s|
    ensures ParseBody(s, out) == ParseBody(tail, out + [ItemMeaning(i)])
  {
    if s[0] == '\\' {
      i := EscapeSound(s[1..]);
      tail := ParseEscape(s[1..]).rest;
      assert s == "\\" + s[1..];
    } else {
      i := Raw(s[0]);
      tail := s[1..];
    }
  }

  lemma {:induction false} BodySound(s: string, out: string) returns (items: seq<StrItem>)
    requires ParseBody(s, out).Good?
    ensures ItemsOk(items)
    ensures ParseBody(s, out).value == out + ItemsMeaning(items)
    ensures s == ShowBody(items, ParseBody(s, out).rest)
    decreases |s|
  {
    if s[0] == '\"' {
      items := [];
      assert out + ItemsMeaning(items) == out;
    } else {
      var i, tail := BodyStep(s, out);
      var rest := BodySound(tail, out + [ItemMeaning(i)]);
      items := [i] + rest;
      ItemsCons(i, rest, out, ParseBody(s, out).rest);
    }
  }

  lemma ItemsCons(i: StrItem, rest: seq<StrItem>, out: string, k: string)
    requires ItemOk(i) && ItemsOk(rest)
    ensures ItemsOk([i] + rest) && ShowBody([i] + rest, k) == ShowItem(i, ShowBody(rest, k))
    ensures out + [ItemMeaning(i)] + ItemsMeaning(rest) == out + ItemsMeaning([i] + rest)
  {
    assert ([i] + rest)[1..] == rest;
  }

  lemma StringSound(s: string) returns (items: seq<StrItem>)
    requires ParseString(s).Good?
    ensures ItemsOk(items) && ParseString(s).value == ItemsMeaning(items)
    ensures s == ShowString(items, ParseString(s).rest)
  {
    items := BodySound(s[1..], "");
    assert "" + ItemsMeaning(items) == ItemsMeaning(items);
  }

  // ------------------------------------------------------------------ numbers

  lemma WholeSound(s: string) returns (whole: string)
    requires ScanWhole(s).Some?
    ensures WholeOk(whole) && s == whole + ScanWhole(s).value
  {
    if s[0] == '0' {
      whole := "0";
    } else {
      var d := SkipDigitsSplit(s[1..]);
      whole := [s[0]] + d;
      assert s == [s[0]] + s[1..];
    }
  }

  lemma FracSound(s: string) returns (f: Option<string>)
    requires ScanFrac(s).Some?
    ensures f.Some? ==> f.value != "" && AllDigits(f.value)
    ensures s == ShowFrac(f, ScanFrac(s).value)
  {
    if s == "" || s[0] != '.' {
      f := None;
    } else {
      var d := SkipDigitsSplit(s[1..]);
      f := Some(d);
      assert s == "." + s[1..];
    }
  }

  lemma ExpSound(s: string) returns (e: Option<Exponent>)
    requires ScanExp(s).Some?
    ensures e.Some? ==> ExponentOk(e.value)
    ensures s == ShowExp(e, ScanExp(s).value)
  {
    if s == "" || !(s[0] == 'e' || s[0] == 'E') {
      e := None;
    } else {
      var t := s[1..];
      var sign := if SkipSign(t) == t then "" else [t[0]];
      assert t == sign + SkipSign(t);
      var d := SkipDigitsSplit(SkipSign(t));
      e := Some(Exponent(s[0], sign, d));
      assert s == [s[0]] + t;
    }
  }

  lemma NumberSound(s: string) returns (n: NumberParts)
    requires ScanNumber(s).Some?
    ensures NumberOk(n) && s == ShowNumber(n, ScanNumber(s).value)
  {
    var body := SkipMinus(s);
    var minus := if body == s then "" else "-";
    assert s == minus + body;
    var whole := WholeSound(body);
    var s1 := ScanWhole(body).value;
    var frac := FracSound(s1);
    var exp := ExpSound(ScanFrac(s1).value);
    n := NumberParts(minus != "", whole, frac, exp);
  }

  lemma ParseNumberSound(s: string) returns (n: NumberParts)
    requires ParseNumber(s).Good?
    ensures NumberOk(n) && s == ShowNumber(n, ParseNumber(s).rest)
    ensures ParseNumber(s).value == Number(ShowNumber(n, ""))
  {
    n := NumberSound(s);
    var k := ScanNumber(s).value;
    ShowNumberAppends(n, k);
    var lexeme := ShowNumber(n, "");
    assert (lexeme + k)[..|lexeme|] == lexeme;
  }

  // ------------------------------------------------------------------- values

  /** `t` is the text the parser consumed from `s`, after the whitespace `w`. */
  ghost predicate Explains(s: string, r: Parsed<JsonValue>, w: string, t: Tree)
    requires r.Good?
  {
    && AllWs(w) && TreeOk(t)
    && s == w + Show(t, r.rest)
    && r.value == Meaning(t)
    && NoDuplicates(r.value)
  }

  lemma LiteralSound(s: string, literal: string, v: JsonValue)
    requires literal != "" && ParseLiteral(s, literal, v).Good?
    ensures s == literal + ParseLiteral(s, literal, v).rest
  {
  }

  lemma ScalarSound(s: string) returns (t: Tree)
    requires ParseScalar(s).Good?
    ensures TreeOk(t) && s == Show(t, ParseScalar(s).rest)
    ensures ParseScalar(s).value == Meaning(t) && NoDuplicates(ParseScalar(s).value)
  {
    if s[0] == '\"' {
      var items := StringSound(s);
      t := TString(items);
    } else if s[0] == 't' {
      LiteralSound(s, "true", Bool(true));
      t := TBool(true);
    } else if s[0] == 'f' {
      LiteralSound(s, "false", Bool(false));
      t := TBool(false);
    } else if s[0] == 'n' {
      LiteralSound(s, "null", Null);
      t := TNull;
    } else {
      var n := ParseNumberSound(s);
      t := TNumber(n);
    }
  }

  lemma {:induction false} ValueSound(s: string) returns (w: string, t: Tree)
    requires ParseValue(s).Good?
    ensures Explains(s, ParseValue(s), w, t)
    decreases |s|, 0
  {
    w := SkipWsSplit(s);
    var body := SkipWs(s);
    if body != "" && body[0] == '{' {
      t := ObjectSound(body[1..]);
      assert body == "{" + body[1..];
    } else if body != "" && body[0] == '[' {
      t := ArraySound(body[1..]);
      assert body == "[" + body[1..];
    } else {
      t := ScalarSound(body);
    }
  }

  lemma {:induction false} ArraySound(s: string) returns (t: Tree)
    requires ParseArray(s).Good?
    ensures TreeOk(t) && t.TArray? && "[" + s == Show(t, ParseArray(s).rest)
    ensures ParseArray(s).value == Meaning(t) && NoDuplicates(Meaning(t))
    decreases |s|, 3
  {
    var w := SkipWsSplit(s);
    var body := SkipWs(s);
    if body != "" && body[0] == ']' {
      t := TArray(w, []);
      assert body == "]" + body[1..];
    } else {
      var elems := ElemsSound(body, []);
      elems := PadElems(w, elems, ParseArray(s).rest);
      t := TArray("", elems);
      assert [] + ElemsMeaning(elems) == ElemsMeaning(elems);
    }
  }

  /** Whitespace skipped before the first element belongs to that element. */
  lemma PadElems(w: string, elems: seq<Elem>, k: string) returns (padded: seq<Elem>)
    requires AllWs(w) && elems != [] && ElemsOk(elems)
    ensures padded != [] && ElemsOk(padded)
    ensures ShowElems(padded, k) == w + ShowElems(elems, k)
    ensures ElemsMeaning(padded) == ElemsMeaning(elems)
  {
    var e := elems[0];
    assert ElemOk(e);
    var e' := e.(before := w + e.before);
    padded := [e'] + elems[1..];
    assert padded[1..] == elems[1..] && ElemOk(e');
    var tail := if |elems| == 1 then "]" + k else "," + ShowElems(elems[1..], k);
    assert ShowElem(e', tail) == w + ShowElem(e, tail);
  }

  lemma {:induction false} ElemsSound(s: string, acc: seq<JsonValue>) returns (elems: seq<Elem>)
    requires ParseElems(s, acc).Good?
    ensures elems != [] && ElemsOk(elems)
    ensures s == ShowElems(elems, ParseElems(s, acc).rest)
    ensures ParseElems(s, acc).value == Array(acc + ElemsMeaning(elems))
    ensures forall i :: 0 <= i < |ElemsMeaning(elems)| ==> NoDuplicates(ElemsMeaning(elems)[i])
    decreases |s|, 1
  {
    var w, t := ValueSound(s);
    var v, s1 := ParseValue(s).value, ParseValue(s).rest;
    var after := SkipWsSplit(s1);
    var s2 := SkipWs(s1);
    var rest := [];
    if s2[0] == ',' {
      rest := ElemsSound(s2[1..], acc + [v]);
    }
    elems := [Elem(w, t, after)] + rest;
    ElemsAssemble(s, acc, Elem(w, t, after), s1, s2, rest, ParseElems(s, acc).rest);
  }

  /** One element in front of what the rest of the loop explained. */
  lemma ElemsAssemble(s: string, acc: seq<JsonValue>, e: Elem, s1: string, s2: string, rest: seq<Elem>, k: string)
    requires AllWs(e.before) && TreeOk(e.value) && AllWs(e.after) && NoDuplicates(Meaning(e.value))
    requires s == e.before + Show(e.value, s1) && s1 == e.after + s2
    requires s2 != "" && s2[0] == (if rest == [] then ']' else ',')
    requires s2[1..] == if rest == [] then k else ShowElems(rest, k)
    requires ElemsOk(rest)
    requires forall i :: 0 <= i < |ElemsMeaning(rest)| ==> NoDuplicates(ElemsMeaning(rest)[i])
    ensures var elems := [e] + rest;
            && ElemsOk(elems)
            && s == ShowElems(elems, k)
            && acc + ElemsMeaning(elems) == acc + [Meaning(e.value)] + ElemsMeaning(rest)
            && forall i :: 0 <= i < |ElemsMeaning(elems)| ==> NoDuplicates(ElemsMeaning(elems)[i])
  {
    var elems := [e] + rest;
    assert elems[1..] == rest && ElemOk(e);
    assert ElemsMeaning(elems) == [Meaning(e.value)] + ElemsMeaning(rest);
    assert s2 == [s2[0]] + s2[1..];
    assert ShowElems(elems, k) == ShowElem(e, s2);
    forall i | 0 <= i < |ElemsMeaning(elems)| ensures NoDuplicates(ElemsMeaning(elems)[i]) {
      assert i > 0 ==> ElemsMeaning(elems)[i] == ElemsMeaning(rest)[i - 1];
    }
  }

  lemma {:induction false} ObjectSound(s: string) returns (t: Tree)
    requires ParseObject(s).Good?
    ensures TreeOk(t) && t.TObject? && "{" + s == Show(t, ParseObject(s).rest)
    ensures ParseObject(s).value == Meaning(t) && NoDuplicates(Meaning(t))
    decreases |s|, 3
  {
    var w := SkipWsSplit(s);
    var body := SkipWs(s);
    if body != "" && body[0] == '}' {
      t := TObject(w, []);
      assert body == "}" + body[1..];
    } else {
      var entries := MembersSound(body, []);
      entries := PadEntries(w, entries, ParseObject(s).rest);
      t := TObject("", entries);
      assert [] + EntriesMeaning(entries) == EntriesMeaning(entries);
    }
  }

  lemma PadEntry(w: string, e: Entry, tail: string)
    ensures ShowEntry(e.(before := w + e.before), tail) == w + ShowEntry(e, tail)
  {
  }

  lemma PadEntries(w: string, entries: seq<Entry>, k: string) returns (padded: seq<Entry>)
    requires AllWs(w) && entries != [] && EntriesOk(entries)
    ensures padded != [] && EntriesOk(padded)
    ensures ShowEntries(padded, k) == w + ShowEntries(entries, k)
    ensures EntriesMeaning(padded) == EntriesMeaning(entries)
  {
    var e := entries[0];
    assert EntryOk(e);
    var e' := e.(before := w + e.before);
    padded := [e'] + entries[1..];
    assert padded[1..] == entries[1..] && EntryOk(e');
    var tail := if |entries| == 1 then "}" + k else "," + ShowEntries(entries[1..], k);
    PadEntry(w, e, tail);
  }

  lemma KeySound(s: string) returns (before: string, key: seq<StrItem>, middle: string)
    requires ParseKey(s).Good?
    ensures AllWs(before) && ItemsOk(key) && AllWs(middle)
    ensures ParseKey(s).value == ItemsMeaning(key)
    ensures s == before + ShowString(key, middle + (":" + ParseKey(s).rest))
  {
    before := SkipWsSplit(s);
    key := StringSound(SkipWs(s));
    var rest := ParseString(SkipWs(s)).rest;
    middle := SkipWsSplit(rest);
    assert SkipWs(rest) == ":" + SkipWs(rest)[1..];
  }

  lemma SnocKeepsDistinct(acc: seq<Member>, m: Member)
    requires DistinctKeys(acc) && !HasKey(acc, m.key)
    ensures DistinctKeys(acc + [m])
  {
  }

  lemma {:induction false} MembersSound(s: string, acc: seq<Member>) returns (entries: seq<Entry>)
    requires ParseMembers(s, acc).Good? && DistinctKeys(acc)
    ensures entries != [] && EntriesOk(entries)
    ensures s == ShowEntries(entries, ParseMembers(s, acc).rest)
    ensures ParseMembers(s, acc).value == Object(acc + EntriesMeaning(entries))
    ensures DistinctKeys(acc + EntriesMeaning(entries))
    ensures forall i :: 0 <= i < |EntriesMeaning(entries)| ==> NoDuplicates(EntriesMeaning(entries)[i].value)
    decreases |s|, 2
  {
    var before, key, middle := KeySound(s);
    var s1 := ParseKey(s).rest;
    var w, t := ValueSound(s1);
    var s2 := ParseValue(s1).rest;
    var after := SkipWsSplit(s2);
    var s3 := SkipWs(s2);
    var e := Entry(before, key, middle, Elem(w, t, after));
    var m := Member(ParseKey(s).value, ParseValue(s1).value);
    SnocKeepsDistinct(acc, m);
    var rest := [];
    if s3[0] == ',' {
      rest := MembersSound(s3[1..], acc + [m]);
    }
    entries := [e] + rest;
    EntriesAssemble(s, acc, e, m, s1, s2, s3, rest, ParseMembers(s, acc).rest);
  }

  /** One member in front of what the rest of the loop explained. */
  lemma EntriesAssemble(s: string, acc: seq<Member>, e: Entry, m: Member, s1: string, s2: string, s3: string,
                        rest: seq<Entry>, k: string)
    requires AllWs(e.before) && ItemsOk(e.key) && AllWs(e.middle)
    requires AllWs(e.elem.before) && TreeOk(e.elem.value) && AllWs(e.elem.after)
    requires m == Member(ItemsMeaning(e.key), Meaning(e.elem.value)) && NoDuplicates(m.value)
    requires s == e.before + ShowString(e.key, e.middle + (":" + s1))
    requires s1 == e.elem.before + Show(e.elem.value, s2) && s2 == e.elem.after + s3
    requires s3 != "" && s3[0] == (if rest == [] then '}' else ',')
    requires s3[1..] == if rest == [] then k else ShowEntries(rest, k)
    requires EntriesOk(rest) && DistinctKeys(acc + [m] + EntriesMeaning(rest))
    requires forall i :: 0 <= i < |EntriesMeaning(rest)| ==> NoDuplicates(EntriesMeaning(rest)[i].value)
    ensures var entries := [e] + rest;
            && EntriesOk(entries)
            && s == ShowEntries(entries, k)
            && acc + EntriesMeaning(entries) == acc + [m] + EntriesMeaning(rest)
            && DistinctKeys(acc + EntriesMeaning(entries))
            && forall i :: 0 <= i < |EntriesMeaning(entries)| ==> NoDuplicates(EntriesMeaning(entries)[i].value)
  {
    assert ElemOk(e.elem) && EntryOk(e);
    EntriesCons(e, rest);
    assert acc + [m] + EntriesMeaning(rest) == acc + ([m] + EntriesMeaning(rest));
    ConsNoDuplicates(m, EntriesMeaning(rest));
    assert s3 == [s3[0]] + s3[1..];
    ShowEntriesCons(e, rest, s3, k);
    assert ShowElem(e.elem, s3) == s1;
  }

  lemma ShowEntriesCons(e: Entry, rest: seq<Entry>, tail: string, k: string)
    requires tail == if rest == [] then "}" + k else "," + ShowEntries(rest, k)
    ensures ShowEntries([e] + rest, k) == ShowEntry(e, tail)
  {
    assert ([e] + rest)[1..] == rest;
  }

  lemma EntriesCons(e: Entry, rest: seq<Entry>)
    requires EntryOk(e) && ElemOk(e.elem) && EntriesOk(rest)
    ensures EntriesOk([e] + rest)
    ensures EntriesMeaning([e] + rest) == [Member(ItemsMeaning(e.key), Meaning(e.elem.value))] + EntriesMeaning(rest)
  {
    assert ([e] + rest)[1..] == rest;
  }

  lemma ConsNoDuplicates(m: Member, rest: seq<Member>)
    requires NoDuplicates(m.value) && forall i :: 0 <= i < |rest| ==> NoDuplicates(rest[i].value)
    ensures forall i :: 0 <= i < |[m] + rest| ==> NoDuplicates(([m] + rest)[i].value)
  {
    forall i | 0 <= i < |[m] + rest| ensures NoDuplicates(([m] + rest)[i].value) {
      assert i > 0 ==> ([m] + rest)[i] == rest[i - 1];
    }
  }
}
