/** Reconciliation of a single-currency expense CSV (agentonomy_commerce/merchant.py), from rows that
    are already split into stripped cells. Amounts are integer cents. */
module Merchant {
  import opened Wrappers
  import opened Sums
  import opened Decimals

  // ---------------------------------------------------------------- money text

  const MAX_CENTS: int := 100_000_000_000_000
  const MAX_ROWS: nat := 1000

  datatype CsvError =
    | WrongColumns | TooManyRows
    | IdRequired | DescriptionRequired | CategoryRequired | DateInvalid | CurrencyInvalid
    | AmountInvalid | AmountOutOfBounds
    | ConflictingDuplicate(id: string) | MixedCurrencies

  predicate Signed(raw: string) {
    raw != "" && (raw[0] == '+' || raw[0] == '-')
  }

  function Unsigned(raw: string): string {
    if Signed(raw) then raw[1..] else raw
  }

  /** Digits, a point and two digits, after an optional sign. */
  predicate MoneyPattern(raw: string) {
    var body := Unsigned(raw);
    && |body| >= 4
    && AllDigits(body[..|body| - 3])
    && body[|body| - 3] == '.'
    && AllDigits(body[|body| - 2..])
  }

  /** `_parse_csv_amount`, in cents. */
  function ParseAmount(raw: string): Result<int, CsvError> {
    var body := Unsigned(raw);
    :- Check(MoneyPattern(raw), AmountInvalid);
    var cents: int := Value(body[..|body| - 3] + body[|body| - 2..]);
    :- Check(cents <= MAX_CENTS, AmountOutOfBounds);
    Ok(if raw[0] == '-' then -cents else cents)
  }

  /** `_format_money`. */
  function FormatMoney(cents: int): string {
    var printed := Rendered(Numeral(if cents < 0 then -cents else cents), -2);
    (if cents < 0 then "-" else "") + printed.integer + "." + printed.fraction
  }

  lemma MoneyBody(integer: Digits, fraction: Digits)
    requires integer != [] && |fraction| == 2
    ensures var body := integer + "." + fraction;
            && |body| >= 4
            && IsDigit(body[0])
            && body[..|body| - 3] == integer
            && body[|body| - 3] == '.'
            && body[|body| - 2..] == fraction
  {
  }

  lemma DigitsAreUnsigned(body: string)
    requires body != "" && IsDigit(body[0])
    ensures Unsigned(body) == body
  {
  }

  /** Money text keeps every cent: within the bounds on inputs it reads back as the same amount. */
  lemma MoneyRoundTrip(cents: int)
    requires -MAX_CENTS <= cents <= MAX_CENTS
    ensures ParseAmount(FormatMoney(cents)) == Ok(cents)
  {
    hide Numeral, Rendered, Value;
    var n := if cents < 0 then -cents else cents;
    NumeralValue(n);
    RenderedPlaces(Numeral(n), 2);
    var printed := Rendered(Numeral(n), -2);
    var body := printed.integer + "." + printed.fraction;
    MoneyBody(printed.integer, printed.fraction);
    assert FormatMoney(cents) == if cents < 0 then "-" + body else body by {
      assert "" + printed.integer == printed.integer;
      assert "-" + printed.integer + "." + printed.fraction == "-" + body;
    }
    assert ("-" + body)[1..] == body;
    DigitsAreUnsigned(body);
  }

  /** An amount's digits, to the tens and ones of its cents. */
  lemma CentsOf(n: nat)
    requires n >= 100
    ensures Numeral(n) == Numeral(n / 100) + [DigitOf(n / 10 % 10), DigitOf(n % 10)]
  {
    assert n / 10 / 10 == n / 100;
    assert Numeral(n / 10) == Numeral(n / 100) + [DigitOf(n / 10 % 10)];
  }

  lemma RenderedCents(n: nat)
    ensures Rendered(Numeral(n), -2) == Printed(Numeral(n / 100), [DigitOf(n / 10 % 10), DigitOf(n % 10)])
  {
    if n >= 100 {
      CentsOf(n);
      hide Numeral;
      NumeralValue(n / 100);
    } else if n >= 10 {
      assert Numeral(n) == [DigitOf(n / 10)] + [DigitOf(n % 10)];
      assert Zeros(0) + Numeral(n) == Numeral(n);
    } else {
      assert Zeros(1) == Zeros(0) + ['0'];
      assert Zeros(1) + Numeral(n) == ['0', DigitOf(n)];
    }
  }

  /** The text of an amount: a minus sign below zero, the whole units without leading zeros, and two decimals. */
  lemma FormatMoneyIs(cents: int)
    ensures var n := if cents < 0 then -cents else cents;
            FormatMoney(cents)
            == (if cents < 0 then "-" else "") + Numeral(n / 100) + "." + [DigitOf(n / 10 % 10), DigitOf(n % 10)]
  {
    hide Numeral, Rendered;
    RenderedCents(if cents < 0 then -cents else cents);
  }

  lemma UnsignedOf(sign: string, body: string)
    requires sign in {"", "+", "-"} && body != "" && IsDigit(body[0])
    ensures var raw := sign + body;
            raw != "" && Unsigned(raw) == body && (raw[0] == '-' <==> sign == "-")
  {
    var raw := sign + body;
    if sign == "" {
      assert raw == body;
    } else {
      assert raw[1..] == body && raw[0] == sign[0];
    }
  }

  /** What an amount reads as: its cents, if they are within the bound. */
  lemma AmountIs(sign: string, integer: Digits, fraction: Digits)
    requires sign in {"", "+", "-"} && integer != [] && |fraction| == 2
    ensures var cents: int := Value(integer) * 100 + Value(fraction);
            ParseAmount(sign + (integer + "." + fraction))
            == if cents > 100_000_000_000_000 then Err(AmountOutOfBounds)
               else Ok(if sign == "-" then -cents else cents)
  {
    hide Value, Unsigned, AllDigits;
    var body := integer + "." + fraction;
    MoneyBody(integer, fraction);
    UnsignedOf(sign, body);
    CentsAre(integer, fraction);
    assert MoneyPattern(sign + body);
  }

  lemma CentsAre(integer: Digits, fraction: Digits)
    requires |fraction| == 2
    ensures Value(integer + fraction) == Value(integer) * 100 + Value(fraction)
  {
    hide Value;
    ValueConcat(integer, fraction);
    assert Power10(1) == 10 && Power10(2) == 100;
  }

  /** And nothing else is an amount. */
  lemma AmountHasForm(raw: string)
    requires ParseAmount(raw).Ok?
    ensures exists sign: string, integer: Digits, fraction: Digits ::
              && sign in {"", "+", "-"} && integer != [] && |fraction| == 2
              && raw == sign + (integer + "." + fraction)
  {
    var body := Unsigned(raw);
    var sign := if Signed(raw) then [raw[0]] else "";
    var k := |body| - 3;
    var integer: Digits, fraction: Digits := body[..k], body[k + 1..];
    assert body == integer + "." + fraction;
    assert raw == sign + body;
    assert sign in {"", "+", "-"};
  }

  // ---------------------------------------------------------------- rows

  /** One row's cells. The date cell is `None` when it is not a calendar date. */
  datatype RawRow = RawRow(
    transactionId: string, date: Option<string>, description: string, amount: string, currency: string, category: string)

  datatype Line = Blank | WrongWidth | Cells(row: RawRow)

  datatype Row = Row(
    transactionId: string, date: string, description: string, amount: int, currency: string, category: string)

  predicate Letter(c: char) {
    'a' <= c <= 'z' || 'A' <= c <= 'Z'
  }

  function Upper(c: char): char {
    if 'a' <= c <= 'z' then c - 'a' + 'A' else c
  }

  /** `_normalize_row`. */
  function Normalize(raw: RawRow): Result<Row, CsvError> {
    var c := raw.currency;
    :- Check(raw.transactionId != "", IdRequired);
    :- Check(raw.description != "", DescriptionRequired);
    :- Check(raw.category != "", CategoryRequired);
    :- Check(raw.date.Some?, DateInvalid);
    :- Check(|c| == 3 && Letter(c[0]) && Letter(c[1]) && Letter(c[2]), CurrencyInvalid);
    var amount :- ParseAmount(raw.amount);
    Ok(Row(raw.transactionId, raw.date.value, raw.description, amount, [Upper(c[0]), Upper(c[1]), Upper(c[2])], raw.category))
  }

  /** A row is accepted exactly with an identifier, a description, a category, a calendar date, three letters of
      currency and an amount; it is kept as it is, with the letters in upper case and the amount in cents. */
  lemma NormalizeIff(raw: RawRow)
    ensures Normalize(raw).Ok? <==>
            && raw.transactionId != "" && raw.description != "" && raw.category != "" && raw.date.Some?
            && |raw.currency| == 3
            && (forall i :: 0 <= i < 3 ==> 'a' <= raw.currency[i] <= 'z' || 'A' <= raw.currency[i] <= 'Z')
            && ParseAmount(raw.amount).Ok?
    ensures Normalize(raw).Ok? ==>
              var row := Normalize(raw).value;
              && row.transactionId == raw.transactionId
              && Some(row.date) == raw.date
              && row.description == raw.description
              && row.category == raw.category
              && Ok(row.amount) == ParseAmount(raw.amount)
              && |row.currency| == 3
              && forall i :: 0 <= i < 3 ==>
                   && 'A' <= row.currency[i] <= 'Z'
                   && (row.currency[i] == raw.currency[i] || row.currency[i] as int == raw.currency[i] as int - 32)
  {
    hide ParseAmount;
  }

  // ---------------------------------------------------------------- reading

  type Ledger = map<string, Row>

  datatype Progress = Progress(count: nat, ledger: Ledger, duplicates: seq<string>)

  function Currencies(ledger: Ledger): set<string> {
    set id | id in ledger :: ledger[id].currency
  }

  /** The effect of one line of the file. */
  function Absorb(p: Progress, line: Line): Result<Progress, CsvError> {
    if line.Blank? then Ok(p) else
      :- Check(line.Cells?, WrongColumns);
      :- Check(p.count < MAX_ROWS, TooManyRows);
      var row :- Normalize(line.row);
      var id := row.transactionId;
      if id in p.ledger then
        :- Check(p.ledger[id] == row, ConflictingDuplicate(id));
        Ok(Progress(p.count + 1, p.ledger, if id in p.duplicates then p.duplicates else p.duplicates + [id]))
      else
        :- Check(|Currencies(p.ledger[id := row])| <= 1, MixedCurrencies);
        Ok(Progress(p.count + 1, p.ledger[id := row], p.duplicates))
  }

  function Fold(lines: seq<Line>): Result<Progress, CsvError> {
    if lines == [] then Ok(Progress(0, map[], [])) else
      var before :- Fold(lines[..|lines| - 1]);
      Absorb(before, lines[|lines| - 1])
  }

  lemma {:induction false} FoldStops(lines: seq<Line>, i: nat)
    requires i <= |lines| && Fold(lines[..i]).Err?
    ensures Fold(lines) == Fold(lines[..i])
  {
    if i < |lines| {
      assert lines[..|lines| - 1][..i] == lines[..i];
      FoldStops(lines[..|lines| - 1], i);
    } else {
      assert lines[..i] == lines;
    }
  }

  // ---------------------------------------------------------------- what is accepted

  predicate WellFormed(line: Line) {
    line.Blank? || (line.Cells? && Normalize(line.row).Ok?)
  }

  function RowsOf(lines: seq<Line>): seq<Row>
    requires forall i :: 0 <= i < |lines| ==> WellFormed(lines[i])
  {
    if lines == [] then [] else
      var last := lines[|lines| - 1];
      assert WellFormed(last);
      RowsOf(lines[..|lines| - 1]) + if last.Blank? then [] else [Normalize(last.row).value]
  }

  predicate Agree(a: Row, b: Row) {
    a.currency == b.currency && (a.transactionId == b.transactionId ==> a == b)
  }

  /** At most 1000 rows, in one currency, with equal rows under equal identifiers. */
  predicate Consistent(rows: seq<Row>) {
    && |rows| <= 1000
    && forall i, j :: 0 <= i < j < |rows| ==> Agree(rows[i], rows[j])
  }

  predicate Acceptable(lines: seq<Line>) {
    (forall i :: 0 <= i < |lines| ==> WellFormed(lines[i])) && Consistent(RowsOf(lines))
  }

  predicate Occurs(rows: seq<Row>, id: string) {
    exists i :: 0 <= i < |rows| && rows[i].transactionId == id
  }

  predicate OccursTwice(rows: seq<Row>, id: string) {
    exists i, j :: 0 <= i < j < |rows| && rows[i].transactionId == id && rows[j].transactionId == id
  }

  /** The ledger has each row, under its identifier, and no other. */
  ghost predicate HasRows(ledger: Ledger, rows: seq<Row>) {
    && (forall i :: 0 <= i < |rows| ==> rows[i].transactionId in ledger && ledger[rows[i].transactionId] == rows[i])
    && (forall id :: id in ledger ==> Occurs(rows, id))
  }

  /** The identifiers that occur at least twice, each once. */
  ghost predicate HasRepeated(duplicates: seq<string>, rows: seq<Row>) {
    && (forall id :: id in duplicates <==> OccursTwice(rows, id))
    && (forall i, j :: 0 <= i < j < |duplicates| ==> duplicates[i] != duplicates[j])
  }

  ghost predicate Summarizes(p: Progress, rows: seq<Row>) {
    p.count == |rows| && HasRows(p.ledger, rows) && HasRepeated(p.duplicates, rows)
  }

  lemma OneCurrency(ledger: Ledger)
    requires forall id, other :: id in ledger && other in ledger ==> ledger[id].currency == ledger[other].currency
    ensures |Currencies(ledger)| <= 1
  {
    if id :| id in ledger {
      assert Currencies(ledger) == {ledger[id].currency};
    } else {
      assert Currencies(ledger) == {};
    }
  }

  lemma ManyCurrencies(ledger: Ledger, id: string, other: string)
    requires id in ledger && other in ledger && |Currencies(ledger)| <= 1
    ensures ledger[id].currency == ledger[other].currency
  {
    var a, b := ledger[id].currency, ledger[other].currency;
    assert a in Currencies(ledger) && b in Currencies(ledger);
    if a != b {
      TwoElements(Currencies(ledger), a, b);
    }
  }

  lemma TwoElements(s: set<string>, a: string, b: string)
    requires a in s && b in s && a != b
    ensures |s| >= 2
  {
    assert b in s - {a};
    assert s == (s - {a}) + {a};
  }

  /** One more row is accepted exactly when it agrees with all rows so far. */
  lemma AbsorbAgrees(p: Progress, rows: seq<Row>, line: Line)
    requires Summarizes(p, rows) && Consistent(rows) && line.Cells? && Normalize(line.row).Ok?
    ensures Absorb(p, line).Ok? <==> Consistent(rows + [Normalize(line.row).value])
  {
    hide Normalize, OccursTwice;
    var row := Normalize(line.row).value;
    var id, more := row.transactionId, rows + [row];
    var larger := p.ledger[id := row];
    if Consistent(more) {
      forall i | 0 <= i < |rows| ensures Agree(rows[i], row) {
        assert Agree(more[i], more[|rows|]);
      }
      assert id in p.ledger ==> p.ledger[id] == row;
      forall a, b | a in larger && b in larger ensures larger[a].currency == larger[b].currency {
        assert a != id ==> Occurs(rows, a);
        assert b != id ==> Occurs(rows, b);
      }
      OneCurrency(larger);
    }
    if Absorb(p, line).Ok? {
      forall i, j | 0 <= i < j < |more| ensures Agree(more[i], more[j]) {
        if j < |rows| {
          assert Agree(rows[i], rows[j]);
        } else if id in p.ledger {
          var k :| 0 <= k < |rows| && rows[k].transactionId == id;
          assert k != i ==> Agree(rows[if i < k then i else k], rows[if i < k then k else i]);
        } else {
          ManyCurrencies(larger, rows[i].transactionId, id);
        }
      }
    }
  }

  lemma OccursConcat(a: seq<Row>, b: seq<Row>, id: string)
    ensures Occurs(a + b, id) <==> Occurs(a, id) || Occurs(b, id)
  {
    var n := |a|;
    if Occurs(a, id) {
      var i :| 0 <= i < n && a[i].transactionId == id;
      assert (a + b)[i].transactionId == id;
    }
    if Occurs(b, id) {
      var i :| 0 <= i < |b| && b[i].transactionId == id;
      assert (a + b)[n + i].transactionId == id;
    }
  }

  lemma TwiceSplits(a: seq<Row>, b: seq<Row>, id: string)
    requires OccursTwice(a + b, id)
    ensures OccursTwice(a, id) || OccursTwice(b, id) || (Occurs(a, id) && Occurs(b, id))
  {
    var n := |a|;
    var i, j :| 0 <= i < j < |a + b| && (a + b)[i].transactionId == id && (a + b)[j].transactionId == id;
    if j < n {
      assert a[i].transactionId == id && a[j].transactionId == id;
    } else if n <= i {
      assert b[i - n].transactionId == id && b[j - n].transactionId == id;
    } else {
      assert a[i].transactionId == id && b[j - n].transactionId == id;
    }
  }

  lemma TwiceJoins(a: seq<Row>, b: seq<Row>, id: string)
    requires OccursTwice(a, id) || OccursTwice(b, id) || (Occurs(a, id) && Occurs(b, id))
    ensures OccursTwice(a + b, id)
  {
    var n := |a|;
    if OccursTwice(a, id) {
      var i, j :| 0 <= i < j < n && a[i].transactionId == id && a[j].transactionId == id;
      assert (a + b)[i].transactionId == id && (a + b)[j].transactionId == id;
    } else if OccursTwice(b, id) {
      var i, j :| 0 <= i < j < |b| && b[i].transactionId == id && b[j].transactionId == id;
      assert (a + b)[n + i].transactionId == id && (a + b)[n + j].transactionId == id;
    } else {
      var i :| 0 <= i < n && a[i].transactionId == id;
      var j :| 0 <= j < |b| && b[j].transactionId == id;
      assert (a + b)[i].transactionId == id && (a + b)[n + j].transactionId == id;
    }
  }

  lemma OccursTwiceConcat(a: seq<Row>, b: seq<Row>, id: string)
    ensures OccursTwice(a + b, id) <==> OccursTwice(a, id) || OccursTwice(b, id) || (Occurs(a, id) && Occurs(b, id))
  {
    hide Occurs, OccursTwice;
    if OccursTwice(a + b, id) {
      TwiceSplits(a, b, id);
    }
    if OccursTwice(a, id) || OccursTwice(b, id) || (Occurs(a, id) && Occurs(b, id)) {
      TwiceJoins(a, b, id);
    }
  }

  lemma SoleOccurs(row: Row, id: string)
    ensures Occurs([row], id) <==> id == row.transactionId
    ensures !OccursTwice([row], id)
  {
    assert [row][0] == row;
  }

  lemma OccursMore(rows: seq<Row>, row: Row, id: string)
    ensures Occurs(rows + [row], id) <==> Occurs(rows, id) || id == row.transactionId
    ensures OccursTwice(rows + [row], id) <==> OccursTwice(rows, id) || (id == row.transactionId && Occurs(rows, id))
  {
    hide Occurs, OccursTwice;
    SoleOccurs(row, id);
    OccursConcat(rows, [row], id);
    OccursTwiceConcat(rows, [row], id);
  }

  lemma LedgerGrows(ledger: Ledger, rows: seq<Row>, row: Row)
    requires HasRows(ledger, rows)
    requires row.transactionId in ledger ==> ledger[row.transactionId] == row
    ensures HasRows(ledger[row.transactionId := row], rows + [row])
  {
    hide Occurs;
    forall id ensures Occurs(rows + [row], id) <==> Occurs(rows, id) || id == row.transactionId {
      OccursMore(rows, row, id);
    }
  }

  lemma DuplicatesGrow(duplicates: seq<string>, rows: seq<Row>, row: Row)
    requires HasRepeated(duplicates, rows)
    ensures var id := row.transactionId;
            HasRepeated(
              if Occurs(rows, id) && id !in duplicates then duplicates + [id] else duplicates, rows + [row])
  {
    hide Occurs, OccursTwice;
    forall id
      ensures OccursTwice(rows + [row], id) <==> OccursTwice(rows, id) || (id == row.transactionId && Occurs(rows, id))
    {
      OccursMore(rows, row, id);
    }
  }

  lemma KnownOccurs(ledger: Ledger, rows: seq<Row>, id: string)
    requires HasRows(ledger, rows)
    ensures Occurs(rows, id) <==> id in ledger
  {
  }

  lemma AbsorbSummarizes(p: Progress, rows: seq<Row>, line: Line)
    requires Summarizes(p, rows) && line.Cells? && Absorb(p, line).Ok?
    ensures Normalize(line.row).Ok? && Summarizes(Absorb(p, line).value, rows + [Normalize(line.row).value])
  {
    hide Normalize, Currencies, HasRows, HasRepeated;
    var row := Normalize(line.row).value;
    KnownOccurs(p.ledger, rows, row.transactionId);
    LedgerGrows(p.ledger, rows, row);
    DuplicatesGrow(p.duplicates, rows, row);
    assert row.transactionId in p.ledger ==> p.ledger[row.transactionId := row] == p.ledger;
  }

  /** The single pass accepts exactly the acceptable files, whatever their order, and then has each row
      once and each repeated identifier once. */
  lemma {:induction false} FoldAccepts(lines: seq<Line>)
    ensures Fold(lines).Ok? <==> Acceptable(lines)
    ensures Fold(lines).Ok? ==> Summarizes(Fold(lines).value, RowsOf(lines))
  {
    if lines != [] {
      hide Summarizes, Normalize, Absorb, Consistent;
      var init, last := lines[..|lines| - 1], lines[|lines| - 1];
      FoldAccepts(init);
      assert lines == init + [last];
      if Fold(init).Ok? {
        LastLine(init, last, Fold(init).value);
      } else if Acceptable(lines) {
        PrefixAcceptable(init, last);
      }
    } else {
      EmptyFile();
    }
  }

  lemma EmptyFile()
    ensures Summarizes(Progress(0, map[], []), []) && Consistent([])
  {
  }

  lemma RowsOfLast(init: seq<Line>, last: Line)
    requires forall i :: 0 <= i < |init| ==> WellFormed(init[i])
    ensures (forall i :: 0 <= i <= |init| ==> WellFormed((init + [last])[i])) <==> WellFormed(last)
    ensures WellFormed(last) ==>
              RowsOf(init + [last]) == if last.Blank? then RowsOf(init) else RowsOf(init) + [Normalize(last.row).value]
  {
    hide Normalize;
    var lines := init + [last];
    assert lines[..|init|] == init && lines[|init|] == last;
  }

  lemma PrefixAcceptable(init: seq<Line>, last: Line)
    requires Acceptable(init + [last])
    ensures Acceptable(init)
  {
    hide Normalize, WellFormed, RowsOf;
    var lines := init + [last];
    assert forall i :: 0 <= i < |init| ==> init[i] == lines[i];
    assert WellFormed(lines[|init|]);
    RowsOfLast(init, last);
    assert forall i :: 0 <= i < |RowsOf(init)| ==> RowsOf(lines)[i] == RowsOf(init)[i];
  }

  lemma LastLine(init: seq<Line>, last: Line, p: Progress)
    requires Acceptable(init) && Summarizes(p, RowsOf(init))
    ensures Absorb(p, last).Ok? <==> Acceptable(init + [last])
    ensures Absorb(p, last).Ok? ==> Summarizes(Absorb(p, last).value, RowsOf(init + [last]))
  {
    RowsOfLast(init, last);
    AbsorbNeedsRow(p, last);
    hide Summarizes, Normalize, Absorb, Consistent, RowsOf;
    if last.Cells? && Normalize(last.row).Ok? {
      AbsorbAgrees(p, RowsOf(init), last);
      if Absorb(p, last).Ok? {
        AbsorbSummarizes(p, RowsOf(init), last);
      }
    }
  }

  lemma AbsorbNeedsRow(p: Progress, line: Line)
    ensures Absorb(p, line).Ok? ==> WellFormed(line)
    ensures line.Blank? ==> Absorb(p, line) == Ok(p)
  {
    hide Normalize;
  }

  /** The ledger is a function of the set of rows: neither their order nor repetitions matter. */
  lemma LedgerIgnoresOrderAndRepetition(a: seq<Line>, b: seq<Line>)
    requires Acceptable(a) && Acceptable(b)
    requires forall row :: row in RowsOf(a) <==> row in RowsOf(b)
    ensures Fold(a).Ok? && Fold(b).Ok? && Fold(a).value.ledger == Fold(b).value.ledger
  {
    hide Normalize, Absorb, RowsOf, Consistent, Summarizes;
    FoldAccepts(a);
    FoldAccepts(b);
    SameLedger(Fold(a).value, RowsOf(a), Fold(b).value, RowsOf(b));
  }

  lemma SameLedger(p: Progress, a: seq<Row>, q: Progress, b: seq<Row>)
    requires Summarizes(p, a) && Summarizes(q, b)
    requires forall row :: row in a <==> row in b
    ensures p.ledger == q.ledger
  {
    forall id | id in p.ledger ensures id in q.ledger && q.ledger[id] == p.ledger[id] {
      var i :| 0 <= i < |a| && a[i].transactionId == id;
      assert a[i] in b;
    }
    forall id | id in q.ledger ensures id in p.ledger {
      var i :| 0 <= i < |b| && b[i].transactionId == id;
      assert b[i] in a;
    }
  }

  lemma {:induction false} RowsConcat(a: seq<Line>, b: seq<Line>)
    requires forall i :: 0 <= i < |a| ==> WellFormed(a[i])
    requires forall i :: 0 <= i < |b| ==> WellFormed(b[i])
    ensures forall i :: 0 <= i < |a + b| ==> WellFormed((a + b)[i])
    ensures RowsOf(a + b) == RowsOf(a) + RowsOf(b)
  {
    hide Normalize;
    if b == [] {
      assert a + b == a;
    } else {
      var n := |b| - 1;
      assert (a + b)[..|a| + n] == a + b[..n] && (a + b)[|a| + n] == b[n];
      RowsConcat(a, b[..n]);
    }
  }

  lemma Agreement(rows: seq<Row>, x: Row, y: Row)
    requires Consistent(rows) && x in rows && y in rows
    ensures Agree(x, y)
  {
    var i :| 0 <= i < |rows| && rows[i] == x;
    var j :| 0 <= j < |rows| && rows[j] == y;
    if i < j {
      assert Agree(rows[i], rows[j]);
    } else if j < i {
      assert Agree(rows[j], rows[i]);
    }
  }

  lemma InsertAgrees(a: seq<Row>, row: Row, b: seq<Row>)
    requires Consistent(a + b) && row in a + b && |a + b| < MAX_ROWS
    ensures Consistent(a + [row] + b)
  {
    var more := a + [row] + b;
    forall i, j | 0 <= i < j < |more| ensures Agree(more[i], more[j]) {
      assert more[i] in a + b && more[j] in a + b;
      Agreement(a + b, more[i], more[j]);
    }
  }

  lemma MemberOccurs(rows: seq<Row>, row: Row)
    requires row in rows
    ensures Occurs(rows, row.transactionId)
  {
  }

  lemma InsertOccursTwice(a: seq<Row>, row: Row, b: seq<Row>, id: string)
    requires row in a + b
    ensures OccursTwice(a + [row] + b, id) <==> OccursTwice(a + b, id) || id == row.transactionId
  {
    hide Occurs, OccursTwice;
    MemberOccurs(a + b, row);
    SoleOccurs(row, id);
    OccursConcat(a, b, id);
    OccursConcat(a, [row], id);
    OccursTwiceConcat(a, b, id);
    OccursTwiceConcat(a, [row], id);
    OccursTwiceConcat(a + [row], b, id);
  }

  /** One more copy of an accepted row, at any place in the file, changes the row count and the duplicate list,
      and nothing else. */
  lemma RepeatedRow(lines: seq<Line>, k: nat, i: nat)
    requires Fold(lines).Ok? && k < |lines| && lines[k].Cells? && i <= |lines|
    requires Fold(lines).value.count < MAX_ROWS
    ensures Normalize(lines[k].row).Ok?
    ensures var p, again := Fold(lines).value, Fold(lines[..i] + [lines[k]] + lines[i..]);
            && again.Ok?
            && again.value.count == p.count + 1
            && again.value.ledger == p.ledger
            && (forall id ::
                  id in again.value.duplicates
                  <==> id in p.duplicates || id == Normalize(lines[k].row).value.transactionId)
            && (forall x, y :: 0 <= x < y < |again.value.duplicates| ==>
                  again.value.duplicates[x] != again.value.duplicates[y])
  {
    hide Normalize, WellFormed, Consistent, RowsOf, Fold, Absorb, OccursTwice, Occurs;
    var a, b := lines[..i], lines[i..];
    assert lines == a + b;
    FoldAccepts(lines);
    RowIsListed(lines, k);
    var row := Normalize(lines[k].row).value;
    assert forall x :: 0 <= x < |b| ==> b[x] == lines[i + x];
    RowsConcat(a, b);
    OneRow(lines[k]);
    RowsConcat(a, [lines[k]]);
    RowsConcat(a + [lines[k]], b);
    InsertAgrees(RowsOf(a), row, RowsOf(b));
    var again := a + [lines[k]] + b;
    FoldAccepts(again);
    SameLedger(Fold(lines).value, RowsOf(lines), Fold(again).value, RowsOf(again));
    forall id
      ensures OccursTwice(RowsOf(again), id) <==> OccursTwice(RowsOf(lines), id) || id == row.transactionId
    {
      InsertOccursTwice(RowsOf(a), row, RowsOf(b), id);
    }
  }

  lemma OneRow(line: Line)
    requires line.Cells? && Normalize(line.row).Ok?
    ensures WellFormed(line) && RowsOf([line]) == [Normalize(line.row).value]
  {
    hide Normalize;
    assert [line][..0] == [];
  }

  lemma {:induction false} RowIsListed(lines: seq<Line>, k: nat)
    requires forall i :: 0 <= i < |lines| ==> WellFormed(lines[i])
    requires k < |lines| && lines[k].Cells?
    ensures Normalize(lines[k].row).Ok? && Normalize(lines[k].row).value in RowsOf(lines)
  {
    hide Normalize;
    assert WellFormed(lines[k]);
    if k < |lines| - 1 {
      RowIsListed(lines[..|lines| - 1], k);
    }
  }

  // ---------------------------------------------------------------- totals

  datatype Kind = Net | Income | Expense | InCategory(category: string)

  predicate Counts(kind: Kind, row: Row) {
    match kind
    case Net => true
    case Income => row.amount > 0
    case Expense => row.amount < 0
    case InCategory(category) => row.category == category
  }

  function Weight(kind: Kind, currency: string, row: Row): int {
    if !Counts(kind, row) || row.currency != currency then 0
    else if kind == Expense then -row.amount
    else row.amount
  }

  function Weights(ledger: Ledger, kind: Kind, currency: string): map<string, int> {
    map id | id in ledger :: Weight(kind, currency, ledger[id])
  }

  ghost function Total(ledger: Ledger, kind: Kind, currency: string): int {
    Sum(Weights(ledger, kind, currency))
  }

  function CountedCurrencies(ledger: Ledger, kind: Kind): set<string> {
    set id | id in ledger && Counts(kind, ledger[id]) :: ledger[id].currency
  }

  /** The rows of one currency that the kind is about: all, those above zero, those below zero, or those of the
      category. */
  function RowsFor(ledger: Ledger, kind: Kind, currency: string): set<string> {
    set id | && id in ledger && ledger[id].currency == currency
             && (kind.Income? ==> ledger[id].amount > 0)
             && (kind.Expense? ==> ledger[id].amount < 0)
             && (kind.InCategory? ==> ledger[id].category == kind.category)
  }

  function AmountsOf(ledger: Ledger, ids: set<string>): map<string, int> {
    map id | id in ids && id in ledger :: ledger[id].amount
  }

  lemma {:induction false} NegatedSum(m: map<string, int>, n: map<string, int>)
    requires m.Keys == n.Keys && forall k :: k in m ==> m[k] == -n[k]
    ensures Sum(m) == -Sum(n)
    decreases |m|
  {
    if m == map[] {
      assert n == map[];
    } else {
      var k :| k in m;
      SumSplit(m, k);
      SumSplit(n, k);
      NegatedSum(m - {k}, n - {k});
    }
  }

  /** A total is the sum of those rows' amounts, with the sign changed for expenses; and the currencies that have a
      total are those with at least one such row. */
  lemma TotalIs(ledger: Ledger, kind: Kind, currency: string)
    ensures var sum := Sum(AmountsOf(ledger, RowsFor(ledger, kind, currency)));
            Total(ledger, kind, currency) == if kind == Expense then -sum else sum
    ensures currency in CountedCurrencies(ledger, kind) <==> RowsFor(ledger, kind, currency) != {}
  {
    hide Sum;
    var amounts := AmountsOf(ledger, RowsFor(ledger, kind, currency));
    if kind == Expense {
      var positive := map id | id in amounts :: -amounts[id];
      SumOfPart(Weights(ledger, kind, currency), positive);
      NegatedSum(positive, amounts);
    } else {
      SumOfPart(Weights(ledger, kind, currency), amounts);
    }
    if currency in CountedCurrencies(ledger, kind) {
      var id :| id in ledger && Counts(kind, ledger[id]) && ledger[id].currency == currency;
      assert id in RowsFor(ledger, kind, currency);
    }
    if id :| id in RowsFor(ledger, kind, currency) {
      assert Counts(kind, ledger[id]);
    }
  }

  type Totals = map<string, int>

  /** `totals` has exactly the currencies that count for `kind`, each with its total. */
  ghost predicate Tallies(totals: Totals, ledger: Ledger, kind: Kind) {
    && totals.Keys == CountedCurrencies(ledger, kind)
    && forall currency :: currency in totals ==> totals[currency] == Total(ledger, kind, currency)
  }

  function AddTo(totals: Totals, currency: string, amount: int): Totals {
    totals[currency := (if currency in totals then totals[currency] else 0) + amount]
  }

  /** What one more row does to a total. */
  function Added(totals: Totals, kind: Kind, row: Row): Totals {
    if Counts(kind, row) then AddTo(totals, row.currency, Weight(kind, row.currency, row)) else totals
  }

  lemma TotalAdds(ledger: Ledger, kind: Kind, currency: string, id: string, row: Row)
    requires id !in ledger
    ensures Total(ledger[id := row], kind, currency) == Weight(kind, currency, row) + Total(ledger, kind, currency)
  {
    hide Weight;
    SumSplit(Weights(ledger[id := row], kind, currency), id);
    assert Weights(ledger[id := row], kind, currency) - {id} == Weights(ledger, kind, currency);
  }

  lemma {:induction false} NothingCounts(ledger: Ledger, kind: Kind, currency: string)
    requires currency !in CountedCurrencies(ledger, kind)
    ensures Total(ledger, kind, currency) == 0
    decreases |ledger|
  {
    if ledger == map[] {
      assert Weights(ledger, kind, currency) == map[];
    } else {
      var id :| id in ledger;
      assert Weight(kind, currency, ledger[id]) == 0;
      hide Weight;
      var rest := ledger - {id};
      NothingCounts(rest, kind, currency);
      assert ledger == rest[id := ledger[id]];
      TotalAdds(rest, kind, currency, id, ledger[id]);
    }
  }

  lemma TallyAdds(totals: Totals, ledger: Ledger, kind: Kind, id: string, row: Row)
    requires Tallies(totals, ledger, kind) && id !in ledger
    ensures Tallies(Added(totals, kind, row), ledger[id := row], kind)
  {
    hide Total;
    var larger, more := ledger[id := row], Added(totals, kind, row);
    var own := if Counts(kind, row) then {row.currency} else {};
    assert CountedCurrencies(larger, kind) == CountedCurrencies(ledger, kind) + own by {
      forall other | other in ledger ensures larger[other] == ledger[other] {
      }
      assert larger[id] == row;
    }
    forall currency | currency in more
      ensures more[currency] == Total(larger, kind, currency)
    {
      TotalAdds(ledger, kind, currency, id, row);
      if currency !in totals {
        NothingCounts(ledger, kind, currency);
      }
    }
  }

  /** Every category of the ledger, each with its totals. */
  ghost predicate Categorizes(byCategory: map<string, Totals>, ledger: Ledger) {
    && byCategory.Keys == (set id | id in ledger :: ledger[id].category)
    && forall category :: category in byCategory ==> Tallies(byCategory[category], ledger, InCategory(category))
  }

  lemma NewCategory(ledger: Ledger, category: string)
    requires forall id :: id in ledger ==> ledger[id].category != category
    ensures Tallies(map[], ledger, InCategory(category))
  {
  }

  lemma CategoryAdds(byCategory: map<string, Totals>, ledger: Ledger, id: string, row: Row)
    requires Categorizes(byCategory, ledger) && id !in ledger
    ensures var totals := if row.category in byCategory then byCategory[row.category] else map[];
            Categorizes(byCategory[row.category := AddTo(totals, row.currency, row.amount)], ledger[id := row])
  {
    hide Tallies, Weights;
    var totals := if row.category in byCategory then byCategory[row.category] else map[];
    var larger := ledger[id := row];
    if row.category !in byCategory {
      forall other | other in ledger ensures ledger[other].category != row.category {
        assert ledger[other].category in byCategory.Keys;
      }
      NewCategory(ledger, row.category);
    }
    forall category | category in byCategory || category == row.category
      ensures Tallies(
                if category == row.category then AddTo(totals, row.currency, row.amount) else byCategory[category],
                larger, InCategory(category))
    {
      TallyAdds(if category == row.category then totals else byCategory[category], ledger, InCategory(category), id, row);
    }
    assert (set other | other in larger :: larger[other].category)
        == (set other | other in ledger :: ledger[other].category) + {row.category} by {
      forall other | other in ledger ensures larger[other] == ledger[other] {
      }
      assert larger[id] == row;
    }
  }

  // ---------------------------------------------------------------- the report

  datatype Report = Report(
    inputRowCount: nat,
    uniqueTransactionCount: nat,
    duplicateIds: seq<string>,
    incomeTotals: map<string, string>,
    expenseTotals: map<string, string>,
    netTotals: map<string, string>,
    byCategory: map<string, map<string, string>>)

  function RenderTotals(totals: Totals): map<string, string> {
    map currency | currency in totals :: FormatMoney(totals[currency])
  }

  ghost predicate Renders(text: map<string, string>, ledger: Ledger, kind: Kind) {
    && text.Keys == CountedCurrencies(ledger, kind)
    && forall currency :: currency in text ==> text[currency] == FormatMoney(Total(ledger, kind, currency))
  }

  /** What the report says about the file that was read. */
  ghost predicate Describes(report: Report, p: Progress) {
    && report.inputRowCount == p.count
    && report.uniqueTransactionCount == |p.ledger|
    && report.duplicateIds == p.duplicates
    && Renders(report.incomeTotals, p.ledger, Income)
    && Renders(report.expenseTotals, p.ledger, Expense)
    && Renders(report.netTotals, p.ledger, Net)
    && report.byCategory.Keys == (set id | id in p.ledger :: p.ledger[id].category)
    && forall category :: category in report.byCategory ==>
         Renders(report.byCategory[category], p.ledger, InCategory(category))
  }

  /** The first loop of `reconcile_csv`: read, normalise, deduplicate. */
  method ReadRows(lines: seq<Line>) returns (result: Result<Progress, CsvError>)
    ensures result == Fold(lines)
  {
    hide Normalize;
    var count, ledger, duplicates, currencies := 0, map[], [], {};
    for i := 0 to |lines|
      invariant Fold(lines[..i]) == Ok(Progress(count, ledger, duplicates))
      invariant currencies == Currencies(ledger)
    {
      ghost var before := Progress(count, ledger, duplicates);
      assert lines[..i + 1][..i] == lines[..i];
      if Fold(lines[..i + 1]).Err? {
        FoldStops(lines, i + 1);
      }
      if lines[i].Blank? {
        continue;
      }
      if lines[i].WrongWidth? {
        return Err(WrongColumns);
      }
      count := count + 1;
      if count > MAX_ROWS {
        return Err(TooManyRows);
      }
      var normalized := Normalize(lines[i].row);
      if normalized.Err? {
        return Err(normalized.error);
      }
      var row := normalized.value;
      var id := row.transactionId;
      if id in ledger {
        if ledger[id] != row {
          return Err(ConflictingDuplicate(id));
        }
        if id !in duplicates {
          duplicates := duplicates + [id];
        }
        continue;
      }
      CurrenciesGrow(ledger, id, row);
      ledger := ledger[id := row];
      currencies := currencies + {row.currency};
      if |currencies| > 1 {
        return Err(MixedCurrencies);
      }
    }
    assert lines[..|lines|] == lines;
    return Ok(Progress(count, ledger, duplicates));
  }

  lemma CurrenciesGrow(ledger: Ledger, id: string, row: Row)
    requires id !in ledger
    ensures Currencies(ledger[id := row]) == Currencies(ledger) + {row.currency}
  {
    var larger := ledger[id := row];
    forall other | other in ledger ensures larger[other] == ledger[other] {
    }
    assert larger[id] == row;
  }

  /** The second loop of `reconcile_csv`: total the unique rows. */
  method TotalRows(
    ledger: Ledger)
    returns (income: Totals, expense: Totals, net: Totals, byCategory: map<string, Totals>)
    ensures AllTallied(income, expense, net, byCategory, ledger)
  {
    hide AllTallied, AddTo;
    income, expense, net, byCategory := map[], map[], map[], map[];
    var todo := ledger.Keys;
    NothingTallied();
    assert ledger - todo == map[];
    while todo != {}
      invariant todo <= ledger.Keys
      invariant AllTallied(income, expense, net, byCategory, ledger - todo)
      decreases |todo|
    {
      var id :| id in todo;
      var row := ledger[id];
      RowTallied(income, expense, net, byCategory, ledger - todo, id, row);
      RestGrows(ledger, todo, id);
      net := AddTo(net, row.currency, row.amount);
      if row.amount > 0 {
        income := AddTo(income, row.currency, row.amount);
      } else if row.amount < 0 {
        expense := AddTo(expense, row.currency, -row.amount);
      }
      var totals := if row.category in byCategory then byCategory[row.category] else map[];
      byCategory := byCategory[row.category := AddTo(totals, row.currency, row.amount)];
      todo := todo - {id};
    }
    assert ledger - todo == ledger;
  }

  lemma RestGrows(ledger: Ledger, todo: set<string>, id: string)
    requires id in todo && todo <= ledger.Keys
    ensures (ledger - todo)[id := ledger[id]] == ledger - (todo - {id})
  {
  }

  /** `reconcile_csv`. */
  method ReconcileCsv(lines: seq<Line>) returns (result: Result<Report, CsvError>)
    ensures match Fold(lines)
            case Err(error) => result == Err(error)
            case Ok(p) => result.Ok? && Describes(result.value, p)
  {
    hide AllTallied, Describes, RenderTotals;
    var read := ReadRows(lines);
    if read.Err? {
      return Err(read.error);
    }
    var ledger := read.value.ledger;
    var income, expense, net, byCategory := TotalRows(ledger);
    var report := Report(
      read.value.count, |ledger|, read.value.duplicates,
      RenderTotals(income), RenderTotals(expense), RenderTotals(net),
      map category | category in byCategory :: RenderTotals(byCategory[category]));
    ReportDescribes(report, read.value, income, expense, net, byCategory);
    return Ok(report);
  }

  ghost predicate AllTallied(
    income: Totals, expense: Totals, net: Totals, byCategory: map<string, Totals>, ledger: Ledger)
  {
    && Tallies(income, ledger, Income)
    && Tallies(expense, ledger, Expense)
    && Tallies(net, ledger, Net)
    && Categorizes(byCategory, ledger)
  }

  lemma NothingTallied()
    ensures AllTallied(map[], map[], map[], map[], map[])
  {
  }

  lemma RowTallied(
    income: Totals, expense: Totals, net: Totals, byCategory: map<string, Totals>, ledger: Ledger, id: string, row: Row)
    requires AllTallied(income, expense, net, byCategory, ledger) && id !in ledger
    ensures var totals := if row.category in byCategory then byCategory[row.category] else map[];
            AllTallied(
              if row.amount > 0 then AddTo(income, row.currency, row.amount) else income,
              if row.amount < 0 then AddTo(expense, row.currency, -row.amount) else expense,
              AddTo(net, row.currency, row.amount),
              byCategory[row.category := AddTo(totals, row.currency, row.amount)],
              ledger[id := row])
  {
    hide Tallies, Categorizes, AddTo;
    TallyAdds(income, ledger, Income, id, row);
    TallyAdds(expense, ledger, Expense, id, row);
    TallyAdds(net, ledger, Net, id, row);
    CategoryAdds(byCategory, ledger, id, row);
  }

  lemma TalliesRender(totals: Totals, ledger: Ledger, kind: Kind)
    requires Tallies(totals, ledger, kind)
    ensures Renders(RenderTotals(totals), ledger, kind)
  {
    hide FormatMoney, Total, CountedCurrencies;
  }

  lemma ReportDescribes(
    report: Report, p: Progress, income: Totals, expense: Totals, net: Totals, byCategory: map<string, Totals>)
    requires AllTallied(income, expense, net, byCategory, p.ledger)
    requires report == Report(
                         p.count, |p.ledger|, p.duplicates, RenderTotals(income), RenderTotals(expense), RenderTotals(net),
                         map category | category in byCategory :: RenderTotals(byCategory[category]))
    ensures Describes(report, p)
  {
    hide Tallies, RenderTotals, Renders;
    TalliesRender(income, p.ledger, Income);
    TalliesRender(expense, p.ledger, Expense);
    TalliesRender(net, p.ledger, Net);
    forall category | category in byCategory
      ensures Renders(RenderTotals(byCategory[category]), p.ledger, InCategory(category))
    {
      TalliesRender(byCategory[category], p.ledger, InCategory(category));
    }
  }

  // ---------------------------------------------------------------- conservation

  /** In every currency, net is income less expense. */
  lemma {:induction false} NetIsIncomeLessExpense(ledger: Ledger, currency: string)
    ensures Total(ledger, Net, currency) == Total(ledger, Income, currency) - Total(ledger, Expense, currency)
    decreases |ledger|
  {
    hide Total;
    if ledger == map[] {
      NothingCounts(ledger, Net, currency);
      NothingCounts(ledger, Income, currency);
      NothingCounts(ledger, Expense, currency);
    } else {
      var id :| id in ledger;
      var rest, row := ledger - {id}, ledger[id];
      assert ledger == rest[id := row];
      NetIsIncomeLessExpense(rest, currency);
      TotalAdds(rest, Net, currency, id, row);
      TotalAdds(rest, Income, currency, id, row);
      TotalAdds(rest, Expense, currency, id, row);
    }
  }

  ghost function CategoryTotals(ledger: Ledger, categories: set<string>, currency: string): map<string, int> {
    map category | category in categories :: Total(ledger, InCategory(category), currency)
  }

  /** In every currency, the totals of the categories add up to the net. */
  lemma {:induction false} CategoriesSumToNet(ledger: Ledger, categories: set<string>, currency: string)
    requires forall id :: id in ledger ==> ledger[id].category in categories
    ensures Sum(CategoryTotals(ledger, categories, currency)) == Total(ledger, Net, currency)
    decreases |ledger|
  {
    hide Total;
    if ledger == map[] {
      NothingCounts(ledger, Net, currency);
      forall category | category in categories ensures Total(ledger, InCategory(category), currency) == 0 {
        NothingCounts(ledger, InCategory(category), currency);
      }
      ZeroSum(CategoryTotals(ledger, categories, currency));
    } else {
      hide Sum;
      var id :| id in ledger;
      var rest, row := ledger - {id}, ledger[id];
      var c := row.category;
      assert ledger == rest[id := row];
      CategoriesSumToNet(rest, categories, currency);
      TotalAdds(rest, Net, currency, id, row);
      forall category | category in categories
        ensures Total(ledger, InCategory(category), currency)
                == Total(rest, InCategory(category), currency) + if category == c then Weight(Net, currency, row) else 0
      {
        TotalAdds(rest, InCategory(category), currency, id, row);
      }
      var before, after := CategoryTotals(rest, categories, currency), CategoryTotals(ledger, categories, currency);
      SumSplit(before, c);
      SumSplit(after, c);
      assert after - {c} == before - {c};
    }
  }

  lemma {:induction false} ZeroSum(m: map<string, int>)
    requires forall k :: k in m ==> m[k] == 0
    ensures Sum(m) == 0
    decreases |m|
  {
    if m != map[] {
      var k :| k in m && Sum(m) == m[k] + Sum(m - {k});
      ZeroSum(m - {k});
    }
  }

  /** Every accepted file conserves money: net is income less expense, the category totals add up to
      net, duplicates are distinct and among the unique identifiers, and one currency is left. */
  lemma ReportConserves(lines: seq<Line>, currency: string)
    requires Acceptable(lines)
    ensures Fold(lines).Ok?
    ensures var p := Fold(lines).value;
            var categories := set id | id in p.ledger :: p.ledger[id].category;
            && Total(p.ledger, Net, currency) == Total(p.ledger, Income, currency) - Total(p.ledger, Expense, currency)
            && Sum(CategoryTotals(p.ledger, categories, currency)) == Total(p.ledger, Net, currency)
            && (forall i, j :: 0 <= i < j < |p.duplicates| ==> p.duplicates[i] != p.duplicates[j])
            && (forall id :: id in p.duplicates ==> id in p.ledger)
            && p.count == |RowsOf(lines)|
  {
    hide Total, Sum, Normalize, Consistent;
    FoldAccepts(lines);
    var p := Fold(lines).value;
    NetIsIncomeLessExpense(p.ledger, currency);
    CategoriesSumToNet(p.ledger, set id | id in p.ledger :: p.ledger[id].category, currency);
    DuplicatesAreKnown(p, RowsOf(lines));
  }

  lemma DuplicatesAreKnown(p: Progress, rows: seq<Row>)
    requires Summarizes(p, rows)
    ensures forall id :: id in p.duplicates ==> id in p.ledger
    ensures forall i, j :: 0 <= i < j < |p.duplicates| ==> p.duplicates[i] != p.duplicates[j]
    ensures p.count == |rows|
  {
  }
}
