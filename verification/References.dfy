/** Variable references such as `source:path."quoted field".field`
    (vars/variables.go): the quote-aware parser, the printer, and how far each undoes
    the other.  Strings are sequences of runes. */
module References {
  import opened Wrappers

  datatype Reference = Reference(source: string, path: string, fields: seq<string>) {
    function Segments(): seq<string> { [path] + fields }
  }

  datatype ParseError = QuotedSource | EmptyField

  /** How %q writes one rune between its quotes. */
  type Escape = char -> string

  /** A rune is kept or becomes a longer sequence, and only the quote needs quotes. */
  ghost predicate Lawful(esc: Escape) {
    forall c :: esc(c) == [c] || (|esc(c)| >= 2 && (c != '"' ==> '"' !in esc(c)))
  }

  /** unicode.IsSpace */
  predicate IsSpace(c: char) {
    || c in {'\t', '\n', '\U{000B}', '\U{000C}', '\r', ' ', '\U{0085}', '\U{00A0}', '\U{1680}'}
    || '\U{2000}' <= c <= '\U{200A}'
    || c in {'\U{2028}', '\U{2029}', '\U{202F}', '\U{205F}', '\U{3000}'}
  }

  // ---- the parser ----

  /** The first `r` in `s` outside quotes. */
  function Find(s: string, r: char, quoted: bool): Option<nat> {
    if s == "" then None
    else if s[0] == r && !quoted then Some(0)
    else match Find(s[1..], r, if s[0] == '"' && s[0] != r then !quoted else quoted)
      case None => None
      case Some(i) => Some(i + 1)
  }

  /** How many quotes there are. */
  function Quotes(s: string): nat { multiset(s)['"'] }

  /** An `r` at position `i` with an even number of quotes before it, counting an open one. */
  predicate IsFree(s: string, r: char, quoted: bool, i: nat) {
    i < |s| && s[i] == r && (Quotes(s[..i]) + if quoted then 1 else 0) % 2 == 0
  }

  /** The position found is the first that is free, and none is found only if none is. */
  lemma {:induction false} FindIsFirst(s: string, r: char, quoted: bool)
    requires r != '"'
    ensures match Find(s, r, quoted)
            case None => forall k: nat :: !IsFree(s, r, quoted, k)
            case Some(i) => IsFree(s, r, quoted, i) && forall k: nat :: k < i ==> !IsFree(s, r, quoted, k)
  {
    if s != "" {
      var q := if s[0] == '"' then !quoted else quoted;
      FindIsFirst(s[1..], r, q);
      forall k: nat ensures k > 0 ==> (IsFree(s, r, quoted, k) <==> IsFree(s[1..], r, q, k - 1)) {
        if 0 < k < |s| { QuotesFrom(s, k); }
      }
      assert s[..0] == "";
      assert Find(s[1..], r, q).Some? && Find(s, r, quoted) != Some(0) ==>
          Find(s, r, quoted) == Some(Find(s[1..], r, q).value + 1);
    }
  }

  lemma QuotesFrom(s: string, k: nat)
    requires 0 < k <= |s|
    ensures Quotes(s[..k]) == Quotes(s[1..][..k - 1]) + if s[0] == '"' then 1 else 0
  {
    assert s[..k] == [s[0]] + s[1..][..k - 1];
  }

  function TrimLeft(s: string): string {
    if s != "" && IsSpace(s[0]) then TrimLeft(s[1..]) else s
  }

  function TrimRight(s: string): string {
    if s != "" && IsSpace(s[|s| - 1]) then TrimRight(s[..|s| - 1]) else s
  }

  function TrimSpace(s: string): string { TrimRight(TrimLeft(s)) }

  function RemoveQuotes(s: string): string {
    if s == "" then "" else (if s[0] == '"' then "" else [s[0]]) + RemoveQuotes(s[1..])
  }

  function Clean(s: string): string { RemoveQuotes(TrimSpace(s)) }

  function ParseSegments(input: string): Result<seq<string>, ParseError>
    decreases |input|
  {
    FindIsFirst(input, '.', false);
    match Find(input, '.', false)
    case None =>
      if Clean(input) == "" then Err(EmptyField) else Ok([Clean(input)])
    case Some(i) =>
      if Clean(input[..i]) == "" then Err(EmptyField)
      else After([Clean(input[..i])], ParseSegments(input[i + 1..]))
  }

  function After(fields: seq<string>, r: Result<seq<string>, ParseError>): Result<seq<string>, ParseError> {
    match r
    case Err(e) => Err(e)
    case Ok(rest) => Ok(fields + rest)
  }

  function ParsePath(source: string, input: string): Result<Reference, ParseError> {
    match ParseSegments(input)
    case Err(e) => Err(e)
    case Ok(segs) => if segs == [] then Err(EmptyField) else Ok(Reference(source, segs[0], segs[1..]))
  }

  function Parse(name: string): Result<Reference, ParseError> {
    FindIsFirst(name, ':', false);
    match Find(name, ':', false)
    case None => ParsePath("", name)
    case Some(i) => if '"' in name[..i] then Err(QuotedSource) else ParsePath(name[..i], name[i + 1..])
  }

  // ---- the printer ----

  predicate NeedsQuoting(seg: string) {
    exists c :: c in seg && c in {',', '.', ':', '/', ' '}
  }

  function EscapeAll(esc: Escape, s: string): string {
    if s == "" then "" else esc(s[0]) + EscapeAll(esc, s[1..])
  }

  function PrintSegment(esc: Escape, seg: string): string {
    if NeedsQuoting(seg) then "\"" + EscapeAll(esc, seg) + "\"" else seg
  }

  function PrintFields(esc: Escape, fields: seq<string>): string {
    if fields == [] then ""
    else "." + (PrintSegment(esc, fields[0]) + PrintFields(esc, fields[1..]))
  }

  function PrintPath(esc: Escape, r: Reference): string {
    PrintSegment(esc, r.path) + PrintFields(esc, r.fields)
  }

  function Print(esc: Escape, r: Reference): string {
    if r.source != "" then r.source + (":" + PrintPath(esc, r)) else PrintPath(esc, r)
  }

  // ---- the source's loops ----

  method FindUnquoted(s: string, r: char) returns (i: nat, ok: bool)
    ensures Find(s, r, false) == if ok then Some(i) else None
  {
    var quoted := false;
    i := 0;
    while i < |s|
      invariant i <= |s|
      invariant Find(s, r, false) == match Find(s[i..], r, quoted) case None => None case Some(k) => Some(i + k)
    {
      assert s[i..][1..] == s[i + 1..];
      if s[i] == r {
        if !quoted { return i, true; }
      } else if s[i] == '"' {
        quoted := !quoted;
      }
      i := i + 1;
    }
    assert s[i..] == "";
    return 0, false;
  }

  method ReadPathSegment(raw: string) returns (field: string, rest: string, hasNextSegment: bool)
    ensures match Find(raw, '.', false)
            case None => !hasNextSegment && field == Clean(raw)
            case Some(i) => i < |raw| && hasNextSegment && field == Clean(raw[..i]) && rest == raw[i + 1..]
  {
    var i, ok := FindUnquoted(raw, '.');
    FindIsFirst(raw, '.', false);
    hasNextSegment, rest := ok, "";
    if hasNextSegment {
      field, rest := raw[..i], raw[i + 1..];
    } else {
      field := raw;
    }
    field := RemoveQuotes(TrimSpace(field));
  }

  lemma AfterSnoc(fields: seq<string>, field: string, r: Result<seq<string>, ParseError>)
    ensures After(fields, After([field], r)) == After(fields + [field], r)
    ensures fields == [] ==> After(fields, r) == r
  {
    if r.Ok? {
      assert fields + ([field] + r.value) == (fields + [field]) + r.value;
      assert [] + r.value == r.value;
    }
  }

  /** The loop over the path. */
  method ReadPath(path: string) returns (r: Result<seq<string>, ParseError>)
    ensures r == ParseSegments(path) && (r.Ok? ==> r.value != [])
  {
    var input, fields: seq<string>, hasNextSegment := path, [], true;
    AfterSnoc([], "", ParseSegments(input));
    while hasNextSegment
      invariant !hasNextSegment ==> fields != [] && ParseSegments(path) == Ok(fields)
      invariant hasNextSegment ==> ParseSegments(path) == After(fields, ParseSegments(input))
      decreases hasNextSegment, |input|
    {
      var field, rest, more := ReadPathSegment(input);
      if field == "" { return Err(EmptyField); }
      if more { AfterSnoc(fields, field, ParseSegments(rest)); }
      fields, input, hasNextSegment := fields + [field], rest, more;
    }
    return Ok(fields);
  }

  method ParseReference(name: string) returns (r: Result<Reference, ParseError>)
    ensures r == Parse(name)
  {
    var input, source := name, "";
    var i, ok := FindUnquoted(input, ':');
    FindIsFirst(name, ':', false);
    if ok {
      source := input[..i];
      if '"' in source { return Err(QuotedSource); }
      input := input[i + 1..];
    }
    var fields := ReadPath(input);
    if fields.Err? { return Err(fields.error); }
    return Ok(Reference(source, fields.value[0], fields.value[1..]));
  }

  lemma ConcatAssoc(a: string, b: string, c: string)
    ensures a + (b + c) == (a + b) + c
  {
  }

  method String(esc: Escape, r: Reference) returns (s: string)
    ensures s == Print(esc, r)
  {
    s := "";
    if r.source != "" { s := s + r.source + ":"; }
    s := s + PrintSegment(esc, r.path);
    var fields := r.fields;
    ConcatAssoc(r.source, ":", PrintPath(esc, r));
    ConcatAssoc(r.source + ":", PrintSegment(esc, r.path), PrintFields(esc, fields));
    assert "" + r.source == r.source;
    while |fields| > 0
      invariant Print(esc, r) == s + PrintFields(esc, fields)
    {
      var seg := PrintSegment(esc, fields[0]);
      ghost var rest := PrintFields(esc, fields[1..]);
      ConcatAssoc(s, ".", seg + rest);
      ConcatAssoc(s + ".", seg, rest);
      s := s + ".";
      s := s + seg;
      fields := fields[1..];
    }
  }

  // ---- searching through printed text ----

  function Shift(n: nat, at: Option<nat>): Option<nat> {
    match at case None => None case Some(i) => Some(n + i)
  }

  lemma {:induction false} FindSkips(t: string, rest: string, r: char, quoted: bool)
    requires r != '"' && '"' !in t && (quoted || r !in t)
    ensures Find(t + rest, r, quoted) == Shift(|t|, Find(rest, r, quoted))
  {
    if t == "" {
      assert t + rest == rest;
    } else {
      assert (t + rest)[0] == t[0] && (t + rest)[1..] == t[1..] + rest;
      FindSkips(t[1..], rest, r, quoted);
    }
  }

  lemma {:induction false} EscapeHasNoQuote(esc: Escape, s: string)
    requires Lawful(esc) && '"' !in s
    ensures '"' !in EscapeAll(esc, s)
  {
    if s != "" {
      EscapeHasNoQuote(esc, s[1..]);
      assert '"' !in esc(s[0]);
    }
  }

  lemma FindSkipsSegment(esc: Escape, seg: string, rest: string, r: char)
    requires Lawful(esc) && '"' !in seg && r in {'.', ':'}
    ensures Find(PrintSegment(esc, seg) + rest, r, false) == Shift(|PrintSegment(esc, seg)|, Find(rest, r, false))
  {
    if NeedsQuoting(seg) {
      var e := EscapeAll(esc, seg);
      EscapeHasNoQuote(esc, seg);
      var all := PrintSegment(esc, seg) + rest;
      assert all[1..] == e + ("\"" + rest);
      FindSkips(e, "\"" + rest, r, true);
      assert ("\"" + rest)[1..] == rest;
    } else {
      FindSkips(seg, rest, r, false);
    }
  }

  // ---- what a printed segment is read back as ----

  lemma {:induction false} RemoveQuotesConcat(a: string, b: string)
    ensures RemoveQuotes(a + b) == RemoveQuotes(a) + RemoveQuotes(b)
  {
    if a == "" {
      assert a + b == b;
    } else {
      assert (a + b)[1..] == a[1..] + b;
      RemoveQuotesConcat(a[1..], b);
    }
  }

  lemma {:induction false} RemoveQuotesNone(s: string)
    ensures '"' !in RemoveQuotes(s)
    ensures '"' !in s ==> RemoveQuotes(s) == s
    ensures forall c :: c in RemoveQuotes(s) ==> c in s
  {
    if s != "" {
      RemoveQuotesNone(s[1..]);
      assert s == [s[0]] + s[1..];
    }
  }

  lemma {:induction false} TrimLeftPart(s: string)
    ensures forall c :: c in TrimLeft(s) ==> c in s
  {
    if s != "" && IsSpace(s[0]) {
      TrimLeftPart(s[1..]);
    }
  }

  lemma {:induction false} TrimRightPart(s: string)
    ensures forall c :: c in TrimRight(s) ==> c in s
  {
    if s != "" && IsSpace(s[|s| - 1]) {
      TrimRightPart(s[..|s| - 1]);
    }
  }

  function Reread(esc: Escape, seg: string): string {
    if NeedsQuoting(seg) then EscapeAll(esc, seg) else TrimSpace(seg)
  }

  lemma CleanPrinted(esc: Escape, seg: string)
    requires Lawful(esc) && '"' !in seg
    ensures Clean(PrintSegment(esc, seg)) == Reread(esc, seg)
  {
    if NeedsQuoting(seg) {
      var e, p := EscapeAll(esc, seg), PrintSegment(esc, seg);
      EscapeHasNoQuote(esc, seg);
      assert p[0] == '"' && p[|p| - 1] == '"' && TrimSpace(p) == p;
      RemoveQuotesConcat("\"" + e, "\"");
      RemoveQuotesConcat("\"", e);
      assert "\""[1..] == "" && RemoveQuotes("\"") == "";
      RemoveQuotesNone(e);
    } else {
      TrimLeftPart(seg);
      TrimRightPart(TrimLeft(seg));
      RemoveQuotesNone(TrimSpace(seg));
    }
  }

  function RereadAll(esc: Escape, segs: seq<string>): Result<seq<string>, ParseError> {
    if segs == [] then Ok([])
    else if Reread(esc, segs[0]) == "" then Err(EmptyField)
    else After([Reread(esc, segs[0])], RereadAll(esc, segs[1..]))
  }

  ghost predicate Unquoted(segs: seq<string>) {
    forall s :: s in segs ==> '"' !in s
  }

  lemma {:induction false} ParsePrinted(esc: Escape, seg: string, fields: seq<string>)
    requires Lawful(esc) && '"' !in seg && Unquoted(fields)
    ensures ParseSegments(PrintSegment(esc, seg) + PrintFields(esc, fields)) == RereadAll(esc, [seg] + fields)
    ensures Find(PrintSegment(esc, seg) + PrintFields(esc, fields), ':', false) == None
    decreases |fields|
  {
    var p, rest := PrintSegment(esc, seg), PrintFields(esc, fields);
    var input := p + rest;
    FindSkipsSegment(esc, seg, rest, '.');
    FindSkipsSegment(esc, seg, rest, ':');
    CleanPrinted(esc, seg);
    assert ([seg] + fields)[1..] == fields;
    if fields == [] {
      assert input == p;
      assert [Reread(esc, seg)] + [] == [Reread(esc, seg)];
      assert RereadAll(esc, fields) == Ok([]);
    } else {
      var tail := PrintSegment(esc, fields[0]) + PrintFields(esc, fields[1..]);
      assert fields == [fields[0]] + fields[1..];
      ParsePrinted(esc, fields[0], fields[1..]);
      assert rest == "." + tail && rest[1..] == tail;
      assert input[..|p|] == p && input[|p| + 1..] == tail;
    }
  }

  lemma ParsePrint(esc: Escape, r: Reference)
    requires Lawful(esc) && ':' !in r.source && '"' !in r.source && Unquoted(r.Segments())
    ensures Parse(Print(esc, r)) == match RereadAll(esc, r.Segments())
                                    case Err(e) => Err(e)
                                    case Ok(segs) => if segs == [] then Err(EmptyField) else Ok(Reference(r.source, segs[0], segs[1..]))
  {
    var path := PrintPath(esc, r);
    assert r.path in r.Segments() && forall f :: f in r.fields ==> f in r.Segments();
    ParsePrinted(esc, r.path, r.fields);
    if r.source != "" {
      FindSkips(r.source, ":" + path, ':', false);
      var all := r.source + (":" + path);
      assert all[..|r.source|] == r.source && all[|r.source| + 1..] == path;
    }
  }

  // ---- both directions ----

  /** The references that survive printing and parsing. */
  ghost predicate Canonical(esc: Escape, r: Reference) {
    && ':' !in r.source && '"' !in r.source
    && forall seg :: seg in r.Segments() ==> CanonicalSegment(esc, seg)
  }

  predicate CanonicalSegment(esc: Escape, seg: string) {
    && seg != "" && '"' !in seg
    && if NeedsQuoting(seg) then EscapeAll(esc, seg) == seg else TrimSpace(seg) == seg
  }

  lemma {:induction false} RereadCanonical(esc: Escape, segs: seq<string>)
    requires Unquoted(segs)
    ensures RereadAll(esc, segs) == Ok(segs) <==> forall seg :: seg in segs ==> CanonicalSegment(esc, seg)
  {
    if segs != [] {
      assert segs == [segs[0]] + segs[1..];
      RereadCanonical(esc, segs[1..]);
      assert segs[0] in segs && forall seg :: seg in segs[1..] ==> seg in segs;
      if RereadAll(esc, segs) == Ok(segs) {
        assert RereadAll(esc, segs[1..]).value == RereadAll(esc, segs).value[1..];
      }
    }
  }

  lemma {:induction false} ParseSegmentsShape(input: string)
    ensures var r := ParseSegments(input);
            r.Ok? ==> && r.value != []
                      && forall s :: s in r.value ==> s != "" && '"' !in s && forall c :: c in s ==> c in input
    decreases |input|
  {
    FindIsFirst(input, '.', false);
    match Find(input, '.', false)
    case None => CleanShape(input);
    case Some(i) =>
      CleanShape(input[..i]);
      ParseSegmentsShape(input[i + 1..]);
  }

  lemma CleanShape(s: string)
    ensures '"' !in Clean(s) && forall c :: c in Clean(s) ==> c in s
  {
    TrimLeftPart(s);
    TrimRightPart(TrimLeft(s));
    RemoveQuotesNone(TrimSpace(s));
  }

  /** What the parser accepts never has a quote in it, nor a colon in its source. */
  lemma ParseShape(name: string)
    requires Parse(name).Ok?
    ensures var r := Parse(name).value;
            && ':' !in r.source && '"' !in r.source
            && forall s :: s in r.Segments() ==> s != "" && '"' !in s && forall c :: c in s ==> c in name
  {
    FindIsFirst(name, ':', false);
    match Find(name, ':', false)
    case None =>
      ParseSegmentsShape(name);
      var segs := ParseSegments(name).value;
      assert segs == [segs[0]] + segs[1..];
    case Some(i) =>
      ParseSegmentsShape(name[i + 1..]);
      var segs := ParseSegments(name[i + 1..]).value;
      assert segs == [segs[0]] + segs[1..];
      NoneBefore(name, ':', i);
  }

  lemma NoneBefore(s: string, r: char, i: nat)
    requires r != '"' && Find(s, r, false) == Some(i) && i < |s| && '"' !in s[..i]
    ensures r !in s[..i]
  {
    FindIsFirst(s, r, false);
    forall k: nat | k < i ensures s[k] != r {
      assert !IsFree(s, r, false, k);
      assert s[..k] == s[..i][..k];
      assert '"' !in s[..k] ==> Quotes(s[..k]) == 0;
    }
  }

  /** Printing and parsing returns a reference exactly when it is canonical. */
  lemma RoundTrip(esc: Escape, r: Reference)
    requires Lawful(esc)
    ensures Parse(Print(esc, r)) == Ok(r) <==> Canonical(esc, r)
  {
    if Parse(Print(esc, r)) == Ok(r) {
      ParseShape(Print(esc, r));
    }
    if ':' !in r.source && '"' !in r.source && Unquoted(r.Segments()) {
      ParsePrint(esc, r);
      RereadCanonical(esc, r.Segments());
      assert r.Segments()[1..] == r.fields;
      if RereadAll(esc, r.Segments()).Ok? && RereadAll(esc, r.Segments()).value != [] {
        var segs := RereadAll(esc, r.Segments()).value;
        assert segs == [segs[0]] + segs[1..];
      }
    }
  }

  /** Distinct canonical references print differently. */
  lemma PrintInjective(esc: Escape, a: Reference, b: Reference)
    requires Lawful(esc) && Canonical(esc, a) && Canonical(esc, b) && Print(esc, a) == Print(esc, b)
    ensures a == b
  {
    RoundTrip(esc, a);
    RoundTrip(esc, b);
  }

  /** %q keeps the rune, and white space other than the blank does not occur. */
  predicate Plain(esc: Escape, c: char) {
    esc(c) == [c] && (IsSpace(c) ==> c == ' ')
  }

  /** Non-empty segments of plain runes without quotes are canonical. */
  lemma PlainIsCanonical(esc: Escape, seg: string)
    requires seg != "" && forall c :: c in seg ==> c != '"' && Plain(esc, c)
    ensures CanonicalSegment(esc, seg)
  {
    if NeedsQuoting(seg) {
      EscapePlain(esc, seg);
    } else {
      assert seg[0] in seg && seg[|seg| - 1] in seg;
      assert seg[0] != ' ' && seg[|seg| - 1] != ' ';
    }
  }

  lemma {:induction false} EscapePlain(esc: Escape, s: string)
    requires forall c :: c in s ==> esc(c) == [c]
    ensures EscapeAll(esc, s) == s
  {
    if s != "" {
      EscapePlain(esc, s[1..]);
      assert s == [s[0]] + s[1..];
    }
  }

  /** Whatever text of plain runes and quotes is accepted, however padded or quoted,
      printing what it means and parsing that again means the same. */
  lemma ParsePrintParse(esc: Escape, name: string)
    requires Lawful(esc) && forall c :: c in name ==> c == '"' || Plain(esc, c)
    requires Parse(name).Ok?
    ensures Parse(Print(esc, Parse(name).value)) == Parse(name)
  {
    ParseShape(name);
    var r := Parse(name).value;
    forall seg | seg in r.Segments()
      ensures CanonicalSegment(esc, seg)
    {
      PlainIsCanonical(esc, seg);
    }
    RoundTrip(esc, r);
  }

  // ---- any text, by its pieces ----

  /** An `r` that is not in `t` outside quotes is found behind it, and an odd number of quotes
      in `t` opens or closes a quotation. */
  lemma {:induction false} FindPast(t: string, rest: string, r: char, quoted: bool)
    requires r != '"' && Find(t, r, quoted).None?
    ensures Find(t + rest, r, quoted) == Shift(|t|, Find(rest, r, if Quotes(t) % 2 == 0 then quoted else !quoted))
  {
    if t == "" {
      assert t + rest == rest;
    } else {
      assert (t + rest)[0] == t[0] && (t + rest)[1..] == t[1..] + rest;
      FindPast(t[1..], rest, r, if t[0] == '"' then !quoted else quoted);
      QuotesFront(t);
    }
  }

  lemma QuotesFront(t: string)
    requires t != ""
    ensures Quotes(t) == Quotes(t[1..]) + if t[0] == '"' then 1 else 0
  {
    assert t == [t[0]] + t[1..];
  }

  /** A stretch of text in which quotations are closed and nothing outside them separates. */
  ghost predicate IsPiece(p: string) {
    Quotes(p) % 2 == 0 && Find(p, '.', false).None? && Find(p, ':', false).None?
  }

  function Join(pieces: seq<string>): string
    requires pieces != []
  {
    if |pieces| == 1 then pieces[0] else pieces[0] + "." + Join(pieces[1..])
  }

  function CleanAll(pieces: seq<string>): seq<string> {
    if pieces == [] then [] else [Clean(pieces[0])] + CleanAll(pieces[1..])
  }

  /** Pieces put together with dots are read as these pieces, cleaned, unless one is empty
      then. */
  lemma {:induction false} ParsePieces(pieces: seq<string>)
    requires pieces != [] && forall p :: p in pieces ==> IsPiece(p)
    ensures ParseSegments(Join(pieces)) == if "" in CleanAll(pieces) then Err(EmptyField) else Ok(CleanAll(pieces))
    ensures Find(Join(pieces), ':', false).None?
  {
    assert pieces[0] in pieces && IsPiece(pieces[0]);
    if |pieces| == 1 {
      assert CleanAll(pieces) == [Clean(pieces[0])];
    } else {
      var p, rest := pieces[0], Join(pieces[1..]);
      ParsePieces(pieces[1..]);
      var text := Join(pieces);
      assert text == p + ("." + rest);
      FindPast(p, "." + rest, '.', false);
      FindPast(p, "." + rest, ':', false);
      assert ("." + rest)[1..] == rest;
      assert text[..|p|] == p && text[|p| + 1..] == rest;
    }
  }

  /** A source in front of the first colon outside quotes is kept as it is, and refused if it
      has a quote. */
  lemma ParseText(source: string, pieces: seq<string>)
    requires pieces != [] && (forall p :: p in pieces ==> IsPiece(p)) && Find(source, ':', false).None? && Quotes(source) % 2 == 0
    ensures Parse(Join(pieces))
            == if "" in CleanAll(pieces) then Err(EmptyField) else Ok(Reference("", CleanAll(pieces)[0], CleanAll(pieces)[1..]))
    ensures Parse(source + ":" + Join(pieces))
            == if '"' in source then Err(QuotedSource)
               else if "" in CleanAll(pieces) then Err(EmptyField)
               else Ok(Reference(source, CleanAll(pieces)[0], CleanAll(pieces)[1..]))
  {
    ParsePieces(pieces);
    var path := Join(pieces);
    FindPast(source, ":" + path, ':', false);
    var all := source + ":" + path;
    assert all == source + (":" + path);
    assert all[..|source|] == source && all[|source| + 1..] == path;
  }

  /** Cleaning drops the space around a piece and all its quotes, and nothing else. */
  lemma CleanIs(s: string) returns (before: string, kept: string, behind: string)
    ensures s == before + kept + behind && (forall c :: c in before + behind ==> IsSpace(c))
    ensures kept != "" ==> !IsSpace(kept[0]) && !IsSpace(kept[|kept| - 1])
    ensures Clean(s) == RemoveQuotes(kept)
  {
    before := TrimLeftIs(s);
    behind := TrimRightIs(TrimLeft(s));
    kept := TrimSpace(s);
    ConcatAssoc(before, kept, behind);
    TrimRightKeepsFront(TrimLeft(s));
  }

  lemma {:induction false} TrimLeftIs(s: string) returns (before: string)
    ensures s == before + TrimLeft(s) && (forall c :: c in before ==> IsSpace(c))
    ensures TrimLeft(s) != "" ==> !IsSpace(TrimLeft(s)[0])
  {
    before := "";
    if s != "" && IsSpace(s[0]) {
      var rest := TrimLeftIs(s[1..]);
      before := [s[0]] + rest;
      assert s == [s[0]] + s[1..];
    }
  }

  lemma {:induction false} TrimRightIs(s: string) returns (behind: string)
    ensures s == TrimRight(s) + behind && (forall c :: c in behind ==> IsSpace(c))
    ensures TrimRight(s) != "" ==> !IsSpace(TrimRight(s)[|TrimRight(s)| - 1])
  {
    behind := "";
    if s != "" && IsSpace(s[|s| - 1]) {
      var rest := TrimRightIs(s[..|s| - 1]);
      behind := rest + [s[|s| - 1]];
      assert s == s[..|s| - 1] + [s[|s| - 1]];
    }
  }

  lemma TrimRightKeepsFront(s: string)
    ensures TrimRight(s) != "" ==> s != "" && TrimRight(s)[0] == s[0]
  {
    var behind := TrimRightIs(s);
  }

  /** Removing quotes goes rune by rune. */
  lemma RemoveQuotesRune(a: string, c: char, b: string)
    ensures RemoveQuotes(a + [c] + b) == RemoveQuotes(a) + (if c == '"' then "" else [c]) + RemoveQuotes(b)
  {
    RemoveQuotesConcat(a + [c], b);
    RemoveQuotesConcat(a, [c]);
    assert [c][1..] == "";
  }
}
