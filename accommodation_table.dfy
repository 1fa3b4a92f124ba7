/** The accommodation table of the letter generator (updated-accomodation-generator/server.js):
    `loadAccommodationsFromCSV` turns the text of a CSV file into a nested map
    disability -> limitation -> accommodations plus the list of known disabilities, and the
    `/diseases` and `/accommodations` routes read them back. */
module AccommodationTable {
  import opened Basics
  import opened JsText

  // ----- The field pattern /(".*?"|[^",\s]+)(?=\s*,|\s*$)/g ---------------------------------

  /** The lookahead `(?=\s*,|\s*$)`: after optional white space comes a comma or the end. */
  predicate FieldEnds(rest: string)
  {
    var t := TrimStart(rest);
    t == [] || t[0] == ','
  }

  /** A character of the class `[^",\s]`. */
  predicate IsWordChar(c: char)
  {
    c != '"' && c != ',' && !IsSpace(c)
  }

  predicate AllWordChars(w: string)
  {
    forall i :: 0 <= i < |w| ==> IsWordChar(w[i])
  }

  /** The greedy run `[^",\s]+` at the front of `s`, as a length: the longest prefix of word
      characters. */
  function WordRun(s: string): (n: nat)
    ensures n <= |s|
    ensures AllWordChars(s[..n])
    ensures n < |s| ==> !IsWordChar(s[n])
    decreases |s|
  {
    if s != [] && IsWordChar(s[0]) then
      assert s[..1 + WordRun(s[1..])] == [s[0]] + s[1..][..WordRun(s[1..])];
      1 + WordRun(s[1..])
    else 0
  }

  /** The lazy `".*?"` alternative: the closing quote is searched from index `q` on, the
      first one whose lookahead holds wins, and `.` never crosses a line terminator. The
      result is the length of the match. */
  function CloseQuote(s: string, q: nat): (r: Option<nat>)
    requires 1 <= q
    ensures r.Some? ==> q < r.value <= |s|
    decreases |s| - q
  {
    if q >= |s| || IsLineTerminator(s[q]) then None
    else if s[q] == '"' && FieldEnds(s[q + 1..]) then Some(q + 1)
    else CloseQuote(s, q + 1)
  }

  /** The match of the field pattern starting at the first character of `s`, as a length.
      A quote can only open the first alternative; any other character only the second,
      whose greedy run can only end where the run itself ends (a shorter run is followed by
      a word character, which is neither space nor comma). */
  function MatchField(s: string): (r: Option<nat>)
    ensures r.Some? ==> 0 < r.value <= |s|
  {
    if s == [] then None
    else if s[0] == '"' then CloseQuote(s, 1)
    else
      var n := WordRun(s);
      if n > 0 && FieldEnds(s[n..]) then Some(n) else None
  }

  /** `row.match(pattern)` with the global flag: the matches from left to right, each search
      resuming where the previous match ended; no match at all (`null`) is the empty list. */
  function Fields(s: string): (parts: seq<string>)
    decreases |s|
  {
    if s == [] then []
    else match MatchField(s)
      case Some(n) => [s[..n]] + Fields(s[n..])
      case None => Fields(s[1..])
  }

  /** A field as a CSV writer would put it: a bare word, or a quoted text holding no quote
      and no line break (commas and spaces are fine inside the quotes). */
  predicate CsvField(f: string)
  {
    || (f != [] && AllWordChars(f))
    || (|f| >= 2 && f[0] == '"' && f[|f| - 1] == '"'
        && forall i :: 1 <= i < |f| - 1 ==> f[i] != '"' && !IsLineTerminator(f[i]))
  }

  lemma {:induction false} WordRunOf(w: string, t: string)
    requires AllWordChars(w)
    requires t == [] || !IsWordChar(t[0])
    ensures WordRun(w + t) == |w|
    decreases |w|
  {
    if w == [] {
      assert w + t == t;
    } else {
      assert (w + t)[1..] == w[1..] + t;
      WordRunOf(w[1..], t);
    }
  }

  lemma {:induction false} CloseQuoteSkips(s: string, q: nat, k: nat)
    requires 1 <= q <= k < |s|
    requires forall i :: q <= i < k ==> s[i] != '"' && !IsLineTerminator(s[i])
    ensures CloseQuote(s, q) == CloseQuote(s, k)
    decreases k - q
  {
    if q < k {
      CloseQuoteSkips(s, q + 1, k);
    }
  }

  /** A CSV field followed by a comma or by the end of the row is matched exactly. */
  lemma MatchCsvField(f: string, t: string)
    requires CsvField(f)
    requires t == [] || t[0] == ','
    ensures MatchField(f + t) == Some(|f|)
  {
    var s := f + t;
    assert FieldEnds(t) by {
      if t != [] {
        assert !IsSpace(t[0]);
      }
    }
    assert s[|f|..] == t;
    if f[0] == '"' {
      var k := |f| - 1;
      assert s[k] == '"' && s[k + 1..] == t;
      if 1 < k {
        CloseQuoteSkips(s, 1, k);
      }
    } else {
      assert !IsWordChar('"');
      WordRunOf(f, t);
    }
  }

  /** A comma never starts a match, so the search moves past it. */
  lemma CommaSkipped(t: string)
    ensures Fields("," + t) == Fields(t)
  {
    assert ([','] + t)[1..] == t;
    assert WordRun([','] + t) == 0;
  }

  /** Writing CSV fields separated by commas and matching the row gives the fields back. */
  lemma {:induction false} FieldsOfCsvRow(fields: seq<string>)
    requires |fields| >= 1
    requires forall i :: 0 <= i < |fields| ==> CsvField(fields[i])
    ensures Fields(Join(fields, ",")) == fields
    decreases |fields|
  {
    var f := fields[0];
    if |fields| == 1 {
      MatchCsvField(f, "");
      assert f + "" == f && f[|f|..] == [];
    } else {
      var rest := Join(fields[1..], ",");
      var s := Join(fields, ",");
      assert s == f + ([','] + rest);
      MatchCsvField(f, [','] + rest);
      assert s[..|f|] == f && s[|f|..] == [','] + rest;
      CommaSkipped(rest);
      FieldsOfCsvRow(fields[1..]);
      assert fields == [f] + fields[1..];
    }
  }

  /** An unquoted word followed by white space and more text is not a field: the search
      moves on past it. */
  lemma {:induction false} UnfinishedWordSkipped(w: string, t: string)
    requires AllWordChars(w)
    requires t != [] && IsSpace(t[0]) && !FieldEnds(t)
    ensures Fields(w + t) == Fields(t)
    decreases |w|
  {
    if w != [] {
      var s := w + t;
      assert s[1..] == w[1..] + t;
      WordRunOf(w, t);
      assert s[|w|..] == t;
      UnfinishedWordSkipped(w[1..], t);
    }
  }

  /** A CSV field in front of a comma or of the end of the row is the next match. */
  lemma CsvFieldFirst(f: string, rest: string)
    requires CsvField(f)
    requires rest == [] || rest[0] == ','
    ensures Fields(f + rest) == [f] + Fields(rest)
  {
    MatchCsvField(f, rest);
    assert (f + rest)[..|f|] == f && (f + rest)[|f|..] == rest;
  }

  /** White space never starts a match. */
  lemma SpaceSkipped(t: string)
    ensures Fields([' '] + t) == Fields(t)
  {
    assert ([' '] + t)[1..] == t;
    assert WordRun([' '] + t) == 0;
  }

  /** An unquoted field of two words separated by a space keeps only its last word. */
  lemma MultiWordFieldKeepsLastWord(w1: string, w2: string, rest: string)
    requires AllWordChars(w1) && AllWordChars(w2) && w2 != []
    requires rest == [] || rest[0] == ','
    ensures Fields(w1 + " " + w2 + rest) == [w2] + Fields(rest)
  {
    var t := w2 + rest;
    assert !FieldEnds([' '] + t) by {
      assert t[0] == w2[0] && !IsSpace(t[0]);
      assert TrimStart([' '] + t) == TrimStart(t) == t;
    }
    assert w1 + " " + w2 + rest == w1 + ([' '] + t);
    UnfinishedWordSkipped(w1, [' '] + t);
    SpaceSkipped(t);
    CsvFieldFirst(w2, rest);
  }

  // ----- Rows and entries --------------------------------------------------------------------

  /** `part.replace(/^"|"$/g, '')`: one leading and one trailing double quote go. */
  function StripQuotes(s: string): (r: string)
    ensures |s| - 2 <= |r| <= |s|
    ensures (s == [] || (s[0] != '"' && s[|s| - 1] != '"')) ==> r == s
  {
    var a := if s != [] && s[0] == '"' then s[1..] else s;
    if a != [] && a[|a| - 1] == '"' then a[..|a| - 1] else a
  }

  /** Quoting a text and stripping the quotes gives the text back, whatever it holds. */
  lemma StripQuotesOfQuoted(x: string)
    ensures StripQuotes("\"" + x + "\"") == x
  {
    var s := "\"" + x + "\"";
    assert s[1..] == x + "\"";
    assert (x + "\"")[..|x|] == x;
  }

  /** A field after clean-up: quotes stripped, then trimmed. */
  function Clean(part: string): (r: string)
    ensures Trimmed(r)
  {
    Trim(StripQuotes(part))
  }

  predicate NonBlank(row: string)
  {
    row != ""
  }

  function TrimEach(lines: seq<string>): (r: seq<string>)
    ensures |r| == |lines|
    ensures forall i :: 0 <= i < |lines| ==> r[i] == Trim(lines[i])
  {
    seq(|lines|, i requires 0 <= i < |lines| => Trim(lines[i]))
  }

  /** The rows of the file: lines trimmed, blank ones dropped. Every row is a non-blank
      trimmed line, and every line that is not blank once trimmed is a row. */
  function Rows(content: string): (rows: seq<string>)
    ensures forall i :: 0 <= i < |rows| ==> rows[i] != "" && Trim(rows[i]) == rows[i]
    ensures forall r :: r in rows ==> exists line :: line in Split(content, '\n') && r == Trim(line)
    ensures forall line :: line in Split(content, '\n') && Trim(line) != "" ==> Trim(line) in rows
  {
    var lines := Split(content, '\n');
    var trimmed := TrimEach(lines);
    FilterMembers(trimmed, NonBlank);
    RowsTrimmed(lines);
    Filter(trimmed, NonBlank)
  }

  lemma RowsTrimmed(lines: seq<string>)
    ensures forall i :: 0 <= i < |lines| ==> Trim(TrimEach(lines)[i]) == TrimEach(lines)[i]
    ensures forall line :: line in lines ==> Trim(line) in TrimEach(lines)
    ensures forall r :: r in TrimEach(lines) ==> exists line :: line in lines && r == Trim(line)
  {
    forall i | 0 <= i < |lines|
      ensures Trim(TrimEach(lines)[i]) == TrimEach(lines)[i]
    {
      TrimIdempotent(lines[i]);
    }
    forall r | r in TrimEach(lines)
      ensures exists line :: line in lines && r == Trim(line)
    {
      var i :| 0 <= i < |lines| && TrimEach(lines)[i] == r;
      assert lines[i] in lines && r == Trim(lines[i]);
    }
  }

  datatype Entry = Entry(disability: string, limitation: string, accommodation: string)

  /** One data row. Fewer than three fields is an incorrect format; a field that is empty
      after clean-up is missing data; either way the row contributes nothing. Fields after
      the third are ignored. */
  function RowEntry(row: string): (e: Option<Entry>)
    ensures e.Some? ==> |Fields(row)| >= 3
    ensures e.Some? ==> e.value.disability != "" && e.value.limitation != "" && e.value.accommodation != ""
  {
    var parts := Fields(row);
    if |parts| < 3 then None
    else
      var d, l, a := Clean(parts[0]), Clean(parts[1]), Clean(parts[2]);
      if d != "" && l != "" && a != "" then Some(Entry(d, l, a)) else None
  }

  /** The entries of a sequence of data rows, in row order. */
  function EntriesOf(rows: seq<string>): (es: seq<Entry>)
    ensures |es| <= |rows|
    decreases |rows|
  {
    if rows == [] then []
    else
      var last := RowEntry(rows[|rows| - 1]);
      EntriesOf(rows[..|rows| - 1]) + (if last.Some? then [last.value] else [])
  }

  /** The entries of a file: the first row is its header and never contributes. */
  function Entries(content: string): (es: seq<Entry>)
  {
    var rows := Rows(content);
    if rows == [] then [] else EntriesOf(rows[1..])
  }

  /** A header line (any non-blank line) in front of the body contributes nothing: the
      entries are those of every row of the body. */
  lemma HeaderNeverContributes(header: string, body: string)
    requires '\n' !in header && Trim(header) != ""
    ensures Entries(header + "\n" + body) == EntriesOf(Rows(body))
  {
    SplitFirst(header, '\n', body);
    var lines := Split(body, '\n');
    assert TrimEach([header] + lines) == [Trim(header)] + TrimEach(lines);
    var t := [Trim(header)] + TrimEach(lines);
    assert t[0] == Trim(header) && t[1..] == TrimEach(lines);
    assert Rows(header + "\n" + body) == [Trim(header)] + Rows(body);
  }

  /** A bare word is its own clean-up. */
  lemma CleanWord(w: string)
    requires w != [] && AllWordChars(w)
    ensures Clean(w) == w
  {
    assert !IsSpace(w[0]) && !IsSpace(w[|w| - 1]);
    TrimPadded("", w, "");
    assert "" + w + "" == w;
  }

  /** An unquoted row whose three fields are two words each keeps only the last word of
      each: "Low vision,Reading print,Screen reader" stores "vision", "print", "reader". */
  lemma MultiWordRow(a1: string, a2: string, b1: string, b2: string, c1: string, c2: string)
    requires AllWordChars(a1) && AllWordChars(b1) && AllWordChars(c1)
    requires AllWordChars(a2) && AllWordChars(b2) && AllWordChars(c2)
    requires a2 != [] && b2 != [] && c2 != []
    ensures RowEntry(a1 + " " + a2 + ("," + (b1 + " " + b2 + ("," + (c1 + " " + c2)))))
            == Some(Entry(a2, b2, c2))
  {
    var tail2 := c1 + " " + c2;
    var tail1 := b1 + " " + b2 + ("," + tail2);
    assert Fields(tail2) == [c2] by {
      assert tail2 == c1 + " " + c2 + "";
      MultiWordFieldKeepsLastWord(c1, c2, "");
    }
    MultiWordFieldKeepsLastWord(b1, b2, "," + tail2);
    CommaSkipped(tail2);
    MultiWordFieldKeepsLastWord(a1, a2, "," + tail1);
    CommaSkipped(tail1);
    CleanWord(a2);
    CleanWord(b2);
    CleanWord(c2);
  }

  /** Rows that are too short or miss a field contribute nothing; others add exactly one
      entry, at the end. */
  lemma EntriesOfAppend(rows: seq<string>, row: string)
    ensures RowEntry(row).None? ==> EntriesOf(rows + [row]) == EntriesOf(rows)
    ensures RowEntry(row).Some? ==> EntriesOf(rows + [row]) == EntriesOf(rows) + [RowEntry(row).value]
  {
    assert (rows + [row])[..|rows|] == rows;
  }

  lemma EntriesOfNextRow(rows: seq<string>, i: nat)
    requires 1 <= i < |rows|
    ensures RowEntry(rows[i]).None? ==> EntriesOf(rows[1..i + 1]) == EntriesOf(rows[1..i])
    ensures RowEntry(rows[i]).Some? ==> EntriesOf(rows[1..i + 1]) == EntriesOf(rows[1..i]) + [RowEntry(rows[i]).value]
  {
    assert rows[1..i + 1] == rows[1..i] + [rows[i]];
    EntriesOfAppend(rows[1..i], rows[i]);
  }

  /** A row written as CSV with three or more fields yields the first three, cleaned. */
  lemma CsvRowEntry(fields: seq<string>)
    requires |fields| >= 3
    requires forall i :: 0 <= i < |fields| ==> CsvField(fields[i])
    requires Clean(fields[0]) != "" && Clean(fields[1]) != "" && Clean(fields[2]) != ""
    ensures RowEntry(Join(fields, ",")) == Some(Entry(Clean(fields[0]), Clean(fields[1]), Clean(fields[2])))
  {
    FieldsOfCsvRow(fields);
  }

  // ----- The table ---------------------------------------------------------------------------

  type Limitations = map<string, seq<string>>
  type Table = map<string, Limitations>

  /** The accommodations listed under a disability and a limitation; none when either is
      absent. */
  function Listed(t: Table, d: string, l: string): seq<string>
  {
    if d in t && l in t[d] then t[d][l] else []
  }

  /** Storing one entry: the disability and the limitation are created when absent, then
      the accommodation is pushed. */
  function AddEntry(t: Table, e: Entry): (r: Table)
    ensures r.Keys == t.Keys + {e.disability}
    ensures Listed(r, e.disability, e.limitation) == Listed(t, e.disability, e.limitation) + [e.accommodation]
    ensures forall d, l :: (d != e.disability || l != e.limitation) ==> Listed(r, d, l) == Listed(t, d, l)
  {
    var lims := if e.disability in t then t[e.disability] else map[];
    var accs := if e.limitation in lims then lims[e.limitation] else [];
    t[e.disability := lims[e.limitation := accs + [e.accommodation]]]
  }

  /** The table after storing the entries one after the other. */
  function Build(t: Table, es: seq<Entry>): Table
    decreases |es|
  {
    if es == [] then t else AddEntry(Build(t, es[..|es| - 1]), es[|es| - 1])
  }

  /** `Set.prototype.add` on an insertion-ordered set. */
  function AddDisease(ds: seq<string>, d: string): (r: seq<string>)
    ensures d in r && (forall x :: x in r <==> x in ds || x == d)
  {
    if d in ds then ds else ds + [d]
  }

  /** The disease list after registering the entries one after the other. */
  function Register(ds: seq<string>, es: seq<Entry>): seq<string>
    decreases |es|
  {
    if es == [] then ds else AddDisease(Register(ds, es[..|es| - 1]), es[|es| - 1].disability)
  }

  /** The accommodations of `es` for a disability and a limitation, in file order, duplicates
      kept: the reference the table is compared with. */
  function AccommodationsFor(es: seq<Entry>, d: string, l: string): seq<string>
    decreases |es|
  {
    if es == [] then []
    else
      var e := es[|es| - 1];
      AccommodationsFor(es[..|es| - 1], d, l) + (if e.disability == d && e.limitation == l then [e.accommodation] else [])
  }

  predicate Mentions(es: seq<Entry>, d: string)
  {
    exists i :: 0 <= i < |es| && es[i].disability == d
  }

  /** Building appends, to every list, the matching accommodations in file order. */
  lemma {:induction false} BuildAppends(t: Table, es: seq<Entry>, d: string, l: string)
    ensures Listed(Build(t, es), d, l) == Listed(t, d, l) + AccommodationsFor(es, d, l)
    decreases |es|
  {
    if es != [] {
      BuildAppends(t, es[..|es| - 1], d, l);
    }
  }

  /** The disabilities of the built table: those already there and those the entries mention. */
  lemma {:induction false} BuildKeys(t: Table, es: seq<Entry>)
    ensures forall d :: d in Build(t, es) <==> d in t || Mentions(es, d)
    decreases |es|
  {
    if es != [] {
      var p := es[..|es| - 1];
      BuildKeys(t, p);
      forall d
        ensures Mentions(es, d) <==> Mentions(p, d) || es[|es| - 1].disability == d
      {
        if Mentions(es, d) {
          var i :| 0 <= i < |es| && es[i].disability == d;
          if i < |p| {
            assert p[i] == es[i];
          }
        }
        if Mentions(p, d) {
          var i :| 0 <= i < |p| && p[i].disability == d;
          assert es[i] == p[i];
        }
      }
    }
  }

  /** The disease list and the table's keys stay the same set. */
  lemma {:induction false} RegisterKeys(ds: seq<string>, t: Table, es: seq<Entry>)
    requires forall d :: d in ds <==> d in t
    ensures forall d :: d in Register(ds, es) <==> d in Build(t, es)
    decreases |es|
  {
    if es != [] {
      RegisterKeys(ds, t, es[..|es| - 1]);
    }
  }

  predicate NoDuplicates(ds: seq<string>)
  {
    forall i, j :: 0 <= i < j < |ds| ==> ds[i] != ds[j]
  }

  /** Registering keeps the list free of duplicates and only appends. */
  lemma {:induction false} RegisterAppends(ds: seq<string>, es: seq<Entry>)
    requires NoDuplicates(ds)
    ensures NoDuplicates(Register(ds, es))
    ensures |ds| <= |Register(ds, es)| && Register(ds, es)[..|ds|] == ds
    decreases |es|
  {
    if es != [] {
      RegisterAppends(ds, es[..|es| - 1]);
      var r := Register(ds, es[..|es| - 1]);
      assert r + [es[|es| - 1].disability] == r + [es[|es| - 1].disability];
      assert (r + [es[|es| - 1].disability])[..|ds|] == r[..|ds|];
    }
  }

  /** Index of the first entry mentioning `d`. */
  function FirstMention(es: seq<Entry>, d: string): (i: nat)
    requires Mentions(es, d)
    ensures i < |es| && es[i].disability == d
    ensures forall k :: 0 <= k < i ==> es[k].disability != d
    decreases |es|
  {
    if es[0].disability == d then 0
    else
      assert Mentions(es[1..], d) by {
        var i :| 0 <= i < |es| && es[i].disability == d;
        assert es[1..][i - 1] == es[i];
      }
      1 + FirstMention(es[1..], d)
  }

  lemma FirstMentionPrefix(es: seq<Entry>, n: nat, d: string)
    requires n <= |es| && Mentions(es[..n], d)
    ensures Mentions(es, d) && FirstMention(es, d) == FirstMention(es[..n], d)
  {
    var i := FirstMention(es[..n], d);
    assert es[i] == es[..n][i];
    var j := FirstMention(es, d);
    assert forall k :: 0 <= k < i ==> es[k] == es[..n][k];
  }

  /** The disabilities a load adds were not on the list before and are each named by some
      entry. */
  lemma {:induction false} RegisterNew(ds: seq<string>, es: seq<Entry>)
    requires NoDuplicates(ds)
    ensures forall k :: |ds| <= k < |Register(ds, es)| ==>
      Register(ds, es)[k] !in ds && Mentions(es, Register(ds, es)[k])
    decreases |es|
  {
    RegisterAppends(ds, es);
    if es != [] {
      var n := |es| - 1;
      var p := es[..n];
      var r := Register(ds, p);
      RegisterNew(ds, p);
      RegisterAppends(ds, p);
      var d := es[n].disability;
      forall k | |ds| <= k < |r|
        ensures Mentions(es, r[k])
      {
        FirstMentionPrefix(es, n, r[k]);
      }
      if d !in r {
        assert d !in ds by {
          assert forall i :: 0 <= i < |ds| ==> r[i] == ds[i];
        }
        assert es[n].disability == d;
      }
    }
  }

  /** The disabilities a load adds are listed in the order of their first mention in the
      file. */
  lemma {:induction false} RegisterOrder(ds: seq<string>, es: seq<Entry>)
    requires NoDuplicates(ds)
    ensures forall k1, k2 :: |ds| <= k1 < k2 < |Register(ds, es)| ==>
      Mentions(es, Register(ds, es)[k1]) && Mentions(es, Register(ds, es)[k2]) &&
      FirstMention(es, Register(ds, es)[k1]) < FirstMention(es, Register(ds, es)[k2])
    decreases |es|
  {
    RegisterNew(ds, es);
    if es != [] {
      var n := |es| - 1;
      var p := es[..n];
      var r := Register(ds, p);
      RegisterOrder(ds, p);
      RegisterNew(ds, p);
      forall k | |ds| <= k < |r|
        ensures Mentions(es, r[k]) && FirstMention(es, r[k]) == FirstMention(p, r[k]) < n
      {
        FirstMentionPrefix(es, n, r[k]);
      }
      var d := es[n].disability;
      var rs := Register(ds, es);
      if d !in r {
        assert !Mentions(p, d) by {
          if Mentions(p, d) {
            RegisterMentioned(ds, p, d);
          }
        }
        assert Mentions(es, d) by {
          assert es[n].disability == d;
        }
        assert forall i :: 0 <= i < n ==> es[i] == p[i];
        assert FirstMention(es, d) == n;
        assert rs == r + [d];
        forall k1, k2 | |ds| <= k1 < k2 < |rs|
          ensures Mentions(es, rs[k1]) && Mentions(es, rs[k2]) &&
            FirstMention(es, rs[k1]) < FirstMention(es, rs[k2])
        {
          assert rs[k1] == r[k1];
          if k2 < |r| {
            assert rs[k2] == r[k2];
          } else {
            assert rs[k2] == d;
          }
        }
      } else {
        assert rs == r;
      }
    }
  }

  /** Every disability an entry mentions ends up on the list. */
  lemma {:induction false} RegisterMentioned(ds: seq<string>, es: seq<Entry>, d: string)
    requires Mentions(es, d)
    ensures d in Register(ds, es)
    decreases |es|
  {
    var n := |es| - 1;
    if es[n].disability != d {
      var i :| 0 <= i < |es| && es[i].disability == d;
      assert es[..n][i] == es[i];
      RegisterMentioned(ds, es[..n], d);
    }
  }

  /** Building and registering one more entry (or none) is one more step of each. */
  lemma BuildStep(t: Table, ds: seq<string>, es: seq<Entry>, entry: Option<Entry>)
    ensures entry.None? ==> Build(t, es + []) == Build(t, es) && Register(ds, es + []) == Register(ds, es)
    ensures entry.Some? ==> Build(t, es + [entry.value]) == AddEntry(Build(t, es), entry.value)
    ensures entry.Some? ==> Register(ds, es + [entry.value]) == AddDisease(Register(ds, es), entry.value.disability)
  {
    assert es + [] == es;
    if entry.Some? {
      assert (es + [entry.value])[..|es|] == es;
    }
  }

  // ----- The loader and the routes -----------------------------------------------------------

  /** The answer of the `/accommodations` route. */
  datatype LookupResult = Found(accommodations: Limitations) | NotFound(status: int, error: string)

  const NoAccommodations := "No accommodations found for this disease"

  /** A missing `disease` query parameter is `undefined`, which as a property key is the
      string "undefined". */
  function QueryKey(disease: Option<string>): (k: string)
    ensures disease.Some? ==> k == disease.value
  {
    if disease.Some? then disease.value else "undefined"
  }

  /** The module-level state of the service: the nested table and the set of disabilities,
      kept in insertion order. */
  class AccommodationStore {
    var accommodationsData: Table
    var diseases: seq<string>

    /** The disease list holds each key of the table exactly once. */
    ghost predicate Valid()
      reads this
    {
      NoDuplicates(diseases) && (forall d :: d in diseases <==> d in accommodationsData)
    }

    constructor()
      ensures accommodationsData == map[] && diseases == [] && Valid()
    {
      accommodationsData := map[];
      diseases := [];
    }

    /** Loading the file's text; `None` is a file that is missing or cannot be read, which
        leaves the state as it was. */
    method LoadFromCSV(file: Option<string>)
      requires Valid()
      modifies this
      ensures Valid()
      ensures file.None? ==> accommodationsData == old(accommodationsData) && diseases == old(diseases)
      ensures file.Some? ==> accommodationsData == Build(old(accommodationsData), Entries(file.value))
      ensures file.Some? ==> diseases == Register(old(diseases), Entries(file.value))
    {
      if file.None? {
        return;
      }
      var rows := Rows(file.value);
      ghost var t0, ds0 := accommodationsData, diseases;
      if rows == [] {
        return;
      }
      var i := 1;
      while i < |rows|
        invariant 1 <= i <= |rows|
        invariant Valid()
        invariant accommodationsData == Build(t0, EntriesOf(rows[1..i]))
        invariant diseases == Register(ds0, EntriesOf(rows[1..i]))
      {
        EntriesOfNextRow(rows, i);
        BuildStep(t0, ds0, EntriesOf(rows[1..i]), RowEntry(rows[i]));
        StoreRow(rows[i]);
        i := i + 1;
      }
      assert rows[1..i] == rows[1..];
      RegisterKeys(ds0, t0, Entries(file.value));
      RegisterAppends(ds0, Entries(file.value));
    }

    /** The body of the `forEach` callback for a data row. */
    method StoreRow(row: string)
      requires Valid()
      modifies this
      ensures Valid()
      ensures RowEntry(row).None? ==> accommodationsData == old(accommodationsData) && diseases == old(diseases)
      ensures RowEntry(row).Some? ==> accommodationsData == AddEntry(old(accommodationsData), RowEntry(row).value)
      ensures RowEntry(row).Some? ==> diseases == AddDisease(old(diseases), RowEntry(row).value.disability)
    {
      var entry := RowEntry(row);
      if entry.Some? {
        var e := entry.value;
        var limitations := if e.disability in accommodationsData then accommodationsData[e.disability] else map[];
        var list := if e.limitation in limitations then limitations[e.limitation] else [];
        accommodationsData := accommodationsData[e.disability := limitations[e.limitation := list + [e.accommodation]]];
        if e.disability !in diseases {
          diseases := diseases + [e.disability];
        }
      }
    }

    /** The `/diseases` route: the known disabilities in insertion order. */
    function DiseaseList(): (r: seq<string>)
      reads this
      requires Valid()
      ensures NoDuplicates(r) && forall d :: d in r <==> d in accommodationsData
    {
      diseases
    }

    /** The `/accommodations` route: a known disability gives its limitation map, anything
        else the 404 answer. */
    function Lookup(disease: Option<string>): (r: LookupResult)
      reads this
      ensures r.Found? <==> QueryKey(disease) in accommodationsData
      ensures r.Found? ==> r.accommodations == accommodationsData[QueryKey(disease)]
      ensures r.NotFound? ==> r == NotFound(404, NoAccommodations)
    {
      var key := QueryKey(disease);
      if key in accommodationsData then Found(accommodationsData[key]) else NotFound(404, NoAccommodations)
    }
  }

  /** After loading a file into the fresh store, a disability is listed by `/diseases` exactly
      when some data row names it, `/accommodations` finds exactly the listed ones, and each
      list holds that disability's and limitation's accommodations in file order. */
  lemma LoadedTable(content: string, d: string, l: string)
    ensures var es := Entries(content);
      && (d in Register([], es) <==> Mentions(es, d))
      && (d in Build(map[], es) <==> d in Register([], es))
      && Listed(Build(map[], es), d, l) == AccommodationsFor(es, d, l)
  {
    var es := Entries(content);
    BuildKeys(map[], es);
    RegisterKeys([], map[], es);
    BuildAppends(map[], es, d, l);
  }
}
