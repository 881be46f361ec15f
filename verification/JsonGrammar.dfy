/** RFC 8259 sections 2 to 7 as concrete syntax trees.

    A tree records every choice the grammar leaves to a writer: whitespace, how a
    character is escaped, the spelling of a number.  `Show(t, k)` is the text of
    `t` followed by `k`; `Meaning(t)` is the value it denotes.  The parser is
    measured against this module and never mentioned by it. */
module JsonGrammar {
  import opened Wrappers
  import opened Json

  // --------------------------------------------------------------- characters

  predicate IsWs(c: char) {
    c == ' ' || c == '\n' || c == '\r' || c == '\t'
  }

  predicate IsDigit(c: char) {
    '0' <= c <= '9'
  }

  predicate IsHex(c: char) {
    IsDigit(c) || 'a' <= c <= 'f' || 'A' <= c <= 'F'
  }

  predicate AllWs(s: string) {
    forall i :: 0 <= i < |s| ==> IsWs(s[i])
  }

  predicate AllDigits(s: string) {
    forall i :: 0 <= i < |s| ==> IsDigit(s[i])
  }

  function HexValue(c: char): (n: nat)
    requires IsHex(c)
    ensures n < 16
  {
    if IsDigit(c) then c as int - '0' as int
    else if 'a' <= c <= 'f' then c as int - 'a' as int + 10
    else c as int - 'A' as int + 10
  }

  predicate IsHex4(h: string) {
    |h| == 4 && IsHex(h[0]) && IsHex(h[1]) && IsHex(h[2]) && IsHex(h[3])
  }

  function Hex4Value(h: string): (n: nat)
    requires IsHex4(h)
    ensures n < 0x10000
  {
    HexValue(h[0]) * 4096 + HexValue(h[1]) * 256 + HexValue(h[2]) * 16 + HexValue(h[3])
  }

  // ------------------------------------------------------------------ strings

  /** One unit of a string body. */
  datatype StrItem =
    | Raw(c: char)                        // any scalar but `"`, `\` and U+0000..U+001F
    | Short(letter: char)                 // `\n` and its seven siblings
    | Unicode(hex: string)                // `\uXXXX` outside the surrogates
    | Surrogates(high: string, low: string)

  predicate IsShort(letter: char) {
    letter in "\"\\/bfnrt"
  }

  function ShortMeaning(letter: char): char
    requires IsShort(letter)
  {
    match letter
    case 'b' => '\U{08}'
    case 'f' => '\U{0C}'
    case 'n' => '\n'
    case 'r' => '\r'
    case 't' => '\t'
    case _ => letter
  }

  predicate IsHigh(n: nat) { 0xD800 <= n <= 0xDBFF }
  predicate IsLow(n: nat) { 0xDC00 <= n <= 0xDFFF }

  predicate ItemOk(i: StrItem) {
    match i
    case Raw(c) => c != '\"' && c != '\\' && c as int >= 0x20
    case Short(letter) => IsShort(letter)
    case Unicode(h) => IsHex4(h) && !IsHigh(Hex4Value(h)) && !IsLow(Hex4Value(h))
    case Surrogates(h, l) => IsHex4(h) && IsHex4(l) && IsHigh(Hex4Value(h)) && IsLow(Hex4Value(l))
  }

  function SurrogateScalar(high: nat, low: nat): char
    requires IsHigh(high) && IsLow(low)
  {
    (0x10000 + (high - 0xD800) * 0x400 + (low - 0xDC00)) as char
  }

  function ItemMeaning(i: StrItem): char
    requires ItemOk(i)
  {
    match i
    case Raw(c) => c
    case Short(letter) => ShortMeaning(letter)
    case Unicode(h) => Hex4Value(h) as char
    case Surrogates(h, l) => SurrogateScalar(Hex4Value(h), Hex4Value(l))
  }

  function ShowItem(i: StrItem, k: string): string {
    match i
    case Raw(c) => [c] + k
    case Short(letter) => ['\\', letter] + k
    case Unicode(h) => "\\u" + (h + k)
    case Surrogates(h, l) => "\\u" + (h + ("\\u" + (l + k)))
  }

  predicate ItemsOk(items: seq<StrItem>) {
    forall i :: 0 <= i < |items| ==> ItemOk(items[i])
  }

  function ItemsMeaning(items: seq<StrItem>): string
    requires ItemsOk(items)
  {
    if items == [] then "" else [ItemMeaning(items[0])] + ItemsMeaning(items[1..])
  }

  /** The items, the closing quote, then `k`. */
  function ShowBody(items: seq<StrItem>, k: string): string {
    if items == [] then "\"" + k else ShowItem(items[0], ShowBody(items[1..], k))
  }

  function ShowString(items: seq<StrItem>, k: string): string {
    "\"" + ShowBody(items, k)
  }

  // ------------------------------------------------------------------ numbers

  /** `[ minus ] int [ frac ] [ exp ]`. */
  datatype NumberParts = NumberParts(negative: bool, whole: string, frac: Option<string>, exp: Option<Exponent>)
  datatype Exponent = Exponent(mark: char, sign: string, digits: string)

  predicate WholeOk(s: string) {
    s == "0" || (s != "" && AllDigits(s) && s[0] != '0')
  }

  predicate ExponentOk(e: Exponent) {
    && (e.mark == 'e' || e.mark == 'E')
    && (e.sign == "" || e.sign == "+" || e.sign == "-")
    && e.digits != "" && AllDigits(e.digits)
  }

  predicate NumberOk(n: NumberParts) {
    && WholeOk(n.whole)
    && (n.frac.Some? ==> n.frac.value != "" && AllDigits(n.frac.value))
    && (n.exp.Some? ==> ExponentOk(n.exp.value))
  }

  function ShowExp(e: Option<Exponent>, k: string): string {
    if e.None? then k else [e.value.mark] + (e.value.sign + (e.value.digits + k))
  }

  function ShowFrac(f: Option<string>, k: string): string {
    if f.None? then k else "." + (f.value + k)
  }

  function ShowNumber(n: NumberParts, k: string): string {
    (if n.negative then "-" else "") + (n.whole + ShowFrac(n.frac, ShowExp(n.exp, k)))
  }

  ghost predicate IsLexeme(s: string) {
    exists n :: NumberOk(n) && ShowNumber(n, "") == s
  }

  // ------------------------------------------------------------------- values

  datatype Tree =
    | TNull
    | TBool(b: bool)
    | TNumber(parts: NumberParts)
    | TString(items: seq<StrItem>)
    | TArray(gap: string, elems: seq<Elem>)      // `gap` is the whitespace of an empty array
    | TObject(gap: string, entries: seq<Entry>)

  datatype Elem = Elem(before: string, value: Tree, after: string)
  datatype Entry = Entry(before: string, key: seq<StrItem>, middle: string, elem: Elem)

  predicate TreeOk(t: Tree)
    decreases t
  {
    match t
    case TNumber(n) => NumberOk(n)
    case TString(items) => ItemsOk(items)
    case TArray(gap, elems) => AllWs(gap) && ElemsOk(elems)
    case TObject(gap, entries) => AllWs(gap) && EntriesOk(entries)
    case _ => true
  }

  predicate ElemOk(e: Elem)
    decreases e
  {
    AllWs(e.before) && TreeOk(e.value) && AllWs(e.after)
  }

  predicate ElemsOk(elems: seq<Elem>)
    decreases elems
  {
    elems == [] || (ElemOk(elems[0]) && ElemsOk(elems[1..]))
  }

  predicate EntriesOk(entries: seq<Entry>)
    decreases entries
  {
    entries == [] || (EntryOk(entries[0]) && EntriesOk(entries[1..]))
  }

  predicate EntryOk(e: Entry)
    decreases e
  {
    AllWs(e.before) && ItemsOk(e.key) && AllWs(e.middle) && ElemOk(e.elem)
  }

  function Meaning(t: Tree): JsonValue
    requires TreeOk(t)
    decreases t
  {
    match t
    case TNull => Null
    case TBool(b) => Bool(b)
    case TNumber(n) => Number(ShowNumber(n, ""))
    case TString(items) => String(ItemsMeaning(items))
    case TArray(_, elems) => Array(ElemsMeaning(elems))
    case TObject(_, entries) => Object(EntriesMeaning(entries))
  }

  function ElemsMeaning(elems: seq<Elem>): seq<JsonValue>
    requires ElemsOk(elems)
    decreases elems
  {
    if elems == [] then []
    else
      assert ElemOk(elems[0]);
      [Meaning(elems[0].value)] + ElemsMeaning(elems[1..])
  }

  function EntriesMeaning(entries: seq<Entry>): seq<Member>
    requires EntriesOk(entries)
    decreases entries
  {
    if entries == [] then []
    else
      assert EntryOk(entries[0]) && ElemOk(entries[0].elem);
      [Member(ItemsMeaning(entries[0].key), Meaning(entries[0].elem.value))] + EntriesMeaning(entries[1..])
  }

  function Show(t: Tree, k: string): string
    decreases t
  {
    match t
    case TNull => "null" + k
    case TBool(b) => (if b then "true" else "false") + k
    case TNumber(n) => ShowNumber(n, k)
    case TString(items) => ShowString(items, k)
    case TArray(gap, elems) => "[" + (if elems == [] then gap + ("]" + k) else ShowElems(elems, k))
    case TObject(gap, entries) => "{" + (if entries == [] then gap + ("}" + k) else ShowEntries(entries, k))
  }

  function ShowElem(e: Elem, k: string): string
    decreases e
  {
    e.before + Show(e.value, e.after + k)
  }

  /** Comma-separated elements, the closing bracket, then `k`. */
  function ShowElems(elems: seq<Elem>, k: string): string
    requires elems != []
    decreases elems
  {
    ShowElem(elems[0], if |elems| == 1 then "]" + k else "," + ShowElems(elems[1..], k))
  }

  function ShowEntry(e: Entry, k: string): string
    decreases e
  {
    e.before + ShowString(e.key, e.middle + (":" + ShowElem(e.elem, k)))
  }

  function ShowEntries(entries: seq<Entry>, k: string): string
    requires entries != []
    decreases entries
  {
    ShowEntry(entries[0], if |entries| == 1 then "}" + k else "," + ShowEntries(entries[1..], k))
  }

  /** A text that cannot extend a number it follows. */
  predicate EndsNumber(k: string) {
    k == "" || !(IsDigit(k[0]) || k[0] == '.' || k[0] == 'e' || k[0] == 'E')
  }
}
