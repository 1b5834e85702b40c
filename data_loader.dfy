/** Loading the BVMT historical quotation files: the frames read from the
    files are concatenated, normalised (column names, the group-11 filter,
    session dates, numeric cleanup) and stored as stocks and daily prices.
    Reading the files themselves is outside the model: each file is given
    as the frame pandas produced for it. */
module DataLoader {
  import opened Common
  import opened Text
  import opened Numbers

  const Expected: seq<string> := ["SEANCE", "GROUPE", "CODE", "VALEUR", "OUVERTURE", "CLOTURE",
                                  "PLUS_BAS", "PLUS_HAUT", "QUANTITE_NEGOCIEE", "NB_TRANSACTION", "CAPITAUX"]

  // Positions of the expected columns once selected.
  const Seance := 0
  const Groupe := 1
  const Code := 2
  const Valeur := 3
  const Ouverture := 4
  const Cloture := 5
  const PlusBas := 6
  const PlusHaut := 7
  const Quantite := 8
  const NbTransaction := 9
  const Capitaux := 10

  /** The numeric columns, converted in this order. */
  const NumericColumns: seq<nat> := [Ouverture, Cloture, PlusBas, PlusHaut, Quantite, NbTransaction, Capitaux]

  datatype Date = Date(year: nat, month: nat, day: nat)

  /** A frame cell: text as read, a number of an integer column, a number
      of a float column, a session date, or NaN/NaT. */
  datatype Cell = Str(s: string) | Int(n: int) | Num(x: real) | Day(date: Date) | NaN

  /** A data frame: column names and rows of cells. */
  datatype Frame = Frame(columns: seq<string>, rows: seq<seq<Cell>>)

  /** Every row has one cell per column. */
  predicate Rectangular(f: Frame)
  {
    forall i :: 0 <= i < |f.rows| ==> |f.rows[i]| == |f.columns|
  }

  // ---------------------------------------------------------------------
  // Session dates

  predicate IsLeap(year: nat)
  {
    (year % 4 == 0 && year % 100 != 0) || year % 400 == 0
  }

  function DaysInMonth(month: nat, year: nat): nat
    requires 1 <= month <= 12
  {
    if month == 2 then (if IsLeap(year) then 29 else 28)
    else if month == 4 || month == 6 || month == 9 || month == 11 then 30
    else 31
  }

  predicate ValidDate(d: Date)
  {
    1 <= d.month <= 12 && 1 <= d.day <= DaysInMonth(d.month, d.year)
  }

  /** `%d/%m/%Y`: a day and a month of one or two digits and a four-digit
      year; a date that does not exist is NaT (None). */
  function ParseDate(s: string): (r: Option<Date>)
    ensures r.Some? ==> ValidDate(r.value) && r.value.year < 10000
  {
    var parts := Split(s, '/');
    if |parts| != 3 then None
    else
      var d := parts[0];
      var m := parts[1];
      var y := parts[2];
      if !(1 <= |d| <= 2 && AllDigits(d) && 1 <= |m| <= 2 && AllDigits(m) && |y| == 4 && AllDigits(y)) then None
      else
        var date := Date(DigitsValue(y), DigitsValue(m), DigitsValue(d));
        if ValidDate(date) then Some(date) else None
  }

  function DigitChar(n: nat): (c: char)
    requires n < 10
    ensures IsDigit(c) && DigitsValue([c]) == n
  {
    var c := ('0' as int + n) as char;
    assert [c][..0] == [];
    c
  }

  /** `n` written with `width` digits, zero-padded. */
  function Padded(n: nat, width: nat): (r: string)
    requires n < Pow10(width)
    ensures |r| == width && AllDigits(r) && DigitsValue(r) == n
  {
    if width == 0 then ""
    else
      var front := Padded(n / 10, width - 1);
      var r := front + [DigitChar(n % 10)];
      assert r[..|r| - 1] == front;
      r
  }

  /** A date as `dd/mm/YYYY`. */
  function FormatDate(d: Date): string
    requires ValidDate(d) && d.year < 10000
  {
    Padded(d.day, 2) + "/" + Padded(d.month, 2) + "/" + Padded(d.year, 4)
  }

  /** Parsing a formatted date gives the date back. */
  lemma {:induction false} ParseFormatDate(d: Date)
    requires ValidDate(d) && d.year < 10000
    ensures ParseDate(FormatDate(d)) == Some(d)
  {
    var dd := Padded(d.day, 2);
    var mm := Padded(d.month, 2);
    var yy := Padded(d.year, 4);
    assert forall j :: 0 <= j < |dd| ==> dd[j] != '/';
    assert forall j :: 0 <= j < |mm| ==> mm[j] != '/';
    assert forall j :: 0 <= j < |yy| ==> yy[j] != '/';
    SplitNoSep(yy, '/');
    SplitPrefix(mm, yy, '/');
    SplitPrefix(dd, mm + "/" + yy, '/');
    assert FormatDate(d) == dd + ['/'] + (mm + ['/'] + yy);
  }

  /** `pd.to_datetime(..., format="%d/%m/%Y", errors="coerce")` on one cell. */
  function ParseSeance(c: Cell): (r: Cell)
    ensures r.Day? || r.NaN?
  {
    if c.Str? && ParseDate(c.s).Some? then Day(ParseDate(c.s).value) else NaN
  }

  // ---------------------------------------------------------------------
  // Numeric cleanup

  /** `astype(str)`, ',' to '.', spaces removed, then `pd.to_numeric(...,
      errors="coerce")`: text that is not a plain decimal number is NaN. A
      number stays as it is; NaN's text "nan" is NaN again. */
  function CoerceCell(c: Cell): (r: Cell)
    ensures r.Num? || r.NaN?
    ensures c.Num? ==> r == c
    ensures c.Int? ==> r == Num(c.n as real)
  {
    match c
    case Str(s) =>
      var v := Decimal(Remove(Replace(s, ',', '.'), ' '));
      if v.Some? then Num(v.value) else NaN
    case Int(n) => Num(n as real)
    case Num(x) => Num(x)
    case Day(_) => NaN
    case NaN => NaN
  }

  /** A French-formatted amount: digits grouped by spaces, a decimal comma. */
  lemma FrenchAmount()
    ensures CoerceCell(Str("1 234,5")) == Num(1234.5)
  {
    FrenchText();
    FrenchValue();
  }

  lemma FrenchText()
    ensures Remove(Replace("1 234,5", ',', '.'), ' ') == "1234.5"
  {
    FrenchDot();
    FrenchSpace();
  }

  lemma FrenchDot()
    ensures Replace("1 234,5", ',', '.') == "1 234.5"
  {
    var t := Replace("1 234,5", ',', '.');
    assert t[0] == '1' && t[1] == ' ' && t[2] == '2' && t[3] == '3' && t[4] == '4' && t[5] == '.' && t[6] == '5';
  }

  lemma FrenchSpace()
    ensures Remove("1 234.5", ' ') == "1234.5"
  {
    assert "1 234.5" == ("1" + " ") + "234.5";
    RemoveConcat("1" + " ", "234.5", ' ');
    RemoveConcat("1", " ", ' ');
    RemoveAbsent("1", ' ');
    RemoveAbsent("234.5", ' ');
    assert Remove(" ", ' ') == "" by {
      assert " "[..0] == "";
    }
  }

  lemma FrenchValue()
    ensures Decimal("1234.5") == Some(1234.5)
  {
    DecimalParts("1234", "5");
    assert "1234" + "." + "5" == "1234.5";
    assert DigitsValue("1234") == 1234 by {
      assert "1234"[..3] == "123";
      assert "123"[..2] == "12";
      assert "12"[..1] == "1";
      assert "1"[..0] == "";
    }
    assert DigitsValue("5") == 5 by {
      assert "5"[..0] == "";
    }
    assert Fraction("5") == 0.5;
  }

  /** The first `i` numeric columns of a row converted. */
  function CoerceRow(row: seq<Cell>, i: nat): (r: seq<Cell>)
    requires i <= |NumericColumns|
    ensures |r| == |row|
    ensures forall k :: 0 <= k < |row| && (k < Ouverture || k >= Ouverture + i) ==> r[k] == row[k]
    ensures |row| == |Expected| ==> forall k :: Ouverture <= k < Ouverture + i ==> r[k] == CoerceCell(row[k])
  {
    if i == 0 then row
    else
      var r := CoerceRow(row, i - 1);
      var c := NumericColumns[i - 1];
      assert c == Ouverture + i - 1;
      if c < |r| then r[c := CoerceCell(r[c])] else r
  }

  /** One column converted in every row (the body of the column loop). */
  function CoerceColumn(rows: seq<seq<Cell>>, col: nat): (r: seq<seq<Cell>>)
    ensures |r| == |rows|
    ensures forall k :: 0 <= k < |rows| ==> r[k] == (if col < |rows[k]| then rows[k][col := CoerceCell(rows[k][col])] else rows[k])
  {
    seq(|rows|, k requires 0 <= k < |rows| => if col < |rows[k]| then rows[k][col := CoerceCell(rows[k][col])] else rows[k])
  }

  /** The frame after the first `i` passes of the column loop: row by row,
      the first `i` numeric columns converted. */
  function CoercedUpTo(rows: seq<seq<Cell>>, i: nat): (r: seq<seq<Cell>>)
    requires i <= |NumericColumns|
    ensures |r| == |rows|
    ensures forall k :: 0 <= k < |rows| ==> r[k] == CoerceRow(rows[k], i)
  {
    if i == 0 then rows else CoerceColumn(CoercedUpTo(rows, i - 1), NumericColumns[i - 1])
  }

  // ---------------------------------------------------------------------
  // _normalize

  /** `col.strip().upper()` for every column name. */
  function NormalizeNames(columns: seq<string>): (r: seq<string>)
    ensures |r| == |columns| && forall i :: 0 <= i < |columns| ==> r[i] == Upper(Strip(columns[i]))
  {
    seq(|columns|, i requires 0 <= i < |columns| => Upper(Strip(columns[i])))
  }

  function NotIn(names: seq<string>): string -> bool
  {
    (c: string) => c !in names
  }

  /** The expected columns the frame lacks, in the expected order. */
  function MissingColumns(names: seq<string>): (r: seq<string>)
    ensures forall c :: c in r <==> c in Expected && c !in names
  {
    Filter(Expected, NotIn(names))
  }

  /** No expected column is missing from names that hold them all. */
  lemma NoneMissing(names: seq<string>)
    requires HasExpected(names)
    ensures MissingColumns(names) == []
  {
    assert forall i :: 0 <= i < |Expected| ==> Expected[i] in names;
    FilterNone(Expected, NotIn(names));
  }

  /** Python's `str(list)` for a list of plain strings. */
  function PyList(items: seq<string>): string
  {
    "[" + Join(Quoted(items), ", ") + "]"
  }

  function Quoted(items: seq<string>): (r: seq<string>)
    ensures |r| == |items| && forall i :: 0 <= i < |items| ==> r[i] == "'" + items[i] + "'"
  {
    seq(|items|, i requires 0 <= i < |items| => "'" + items[i] + "'")
  }

  function MissingMessage(missing: seq<string>): string
  {
    "Missing columns: " + PyList(missing)
  }

  /** The first position of column `c`. */
  function ColumnIndex(names: seq<string>, c: string): (r: Option<nat>)
    ensures r.Some? ==> r.value < |names| && names[r.value] == c && forall j :: 0 <= j < r.value ==> names[j] != c
    ensures r.None? <==> c !in names
  {
    if |names| == 0 then None
    else if names[0] == c then Some(0)
    else
      var r := ColumnIndex(names[1..], c);
      if r.None? then None else Some(r.value + 1)
  }

  predicate HasExpected(names: seq<string>)
  {
    forall c :: c in Expected ==> c in names
  }

  /** Column `c` occurs after its first position. */
  predicate Duplicated(names: seq<string>, c: string)
  {
    var first := ColumnIndex(names, c);
    first.Some? && c in names[first.value + 1..]
  }

  /** `Duplicated` holds exactly when `c` occurs at two positions. */
  lemma DuplicatedMeans(names: seq<string>, c: string)
    ensures Duplicated(names, c) <==> exists i, j :: 0 <= i < j < |names| && names[i] == c && names[j] == c
  {
    var first := ColumnIndex(names, c);
    if first.Some? {
      var rest := names[first.value + 1..];
      assert forall j :: first.value < j < |names| ==> names[j] == rest[j - first.value - 1];
      if c in rest {
        var m :| 0 <= m < |rest| && rest[m] == c;
        assert names[first.value + 1 + m] == c;
      }
    }
  }

  /** Some column named `c` holds NaN in the row. */
  predicate NaNUnder(names: seq<string>, row: seq<Cell>, c: string)
    requires |row| == |names|
  {
    exists j :: 0 <= j < |names| && names[j] == c && row[j].NaN?
  }

  /** `df.loc[:, EXPECTED_COLUMNS]` for one row: the expected columns in
      order, each read from the first column of that name (the GROUPE
      filter reads the first GROUPE column too). CODE is the exception:
      when it names several columns, `dropna(subset=[..., "CODE"])` looks
      at all of them, so the row's CODE is NaN as soon as one of them is. */
  function SelectRow(names: seq<string>, row: seq<Cell>): (r: seq<Cell>)
    requires |row| == |names| && HasExpected(names)
    ensures |r| == |Expected|
    ensures forall k :: 0 <= k < |Expected| && k != Code ==> r[k] == row[ColumnIndex(names, Expected[k]).value]
    ensures r[Code] == if NaNUnder(names, row, "CODE") then NaN else row[ColumnIndex(names, "CODE").value]
  {
    var code := if NaNUnder(names, row, "CODE") then NaN else row[ColumnIndex(names, "CODE").value];
    seq(|Expected|, k requires 0 <= k < |Expected| => if k == Code then code else row[ColumnIndex(names, Expected[k]).value])
  }

  /** With a single CODE column, every expected column, CODE included, is
      read from the first column of its name. */
  lemma SelectRowUnique(names: seq<string>, row: seq<Cell>)
    requires |row| == |names| && HasExpected(names) && !Duplicated(names, "CODE")
    ensures forall k :: 0 <= k < |Expected| ==> SelectRow(names, row)[k] == row[ColumnIndex(names, Expected[k]).value]
  {
    DuplicatedMeans(names, "CODE");
    assert Expected[Code] == "CODE";
  }

  function Selected(names: seq<string>, rows: seq<seq<Cell>>): (r: seq<seq<Cell>>)
    requires HasExpected(names) && forall i :: 0 <= i < |rows| ==> |rows[i]| == |names|
    ensures |r| == |rows| && forall i :: 0 <= i < |rows| ==> r[i] == SelectRow(names, rows[i])
  {
    seq(|rows|, i requires 0 <= i < |rows| => SelectRow(names, rows[i]))
  }

  /** Python's `str` of an integer. */
  function IntText(n: int): (r: string)
    ensures n >= 0 ==> r == NatToString(n)
    ensures n < 0 ==> r == "-" + NatToString(-n)
  {
    if n < 0 then "-" + NatToString(-n) else NatToString(n)
  }

  /** The text "11" is the integer 11 and no other. */
  lemma IntText11(n: int)
    ensures IntText(n) == "11" <==> n == 11
  {
    if n < 0 {
      assert IntText(n)[0] == '-';
    } else if n < 10 {
      assert |IntText(n)| == 1;
    } else {
      var front := NatToString(n / 10);
      assert IntText(n) == front + ['0' + (n % 10) as char];
      if n / 10 >= 10 {
        assert |NatToString(n / 100)| >= 1;
        assert |front| >= 2;
      } else {
        assert front == ['0' + (n / 10) as char];
        assert ('0' + (n / 10) as char) as int == '0' as int + n / 10;
        assert ('0' + (n % 10) as char) as int == '0' as int + n % 10;
        if IntText(n) == "11" {
          assert IntText(n)[0] == front[0] && IntText(n)[1] == '0' + (n % 10) as char;
          assert "11"[0] == '1' && "11"[1] == '1';
          assert n / 10 == 1 && n % 10 == 1;
        }
      }
    }
  }

  /** `astype(str).str.strip() == "11"` on a GROUPE cell: text is stripped,
      an integer column's cell is its decimal text. A float column's text
      always holds a '.', an 'e', "inf" or "nan", and NaN's text is "nan",
      so neither is ever "11". */
  predicate GroupeText11(c: Cell)
  {
    (c.Str? && Strip(c.s) == "11") || (c.Int? && IntText(c.n) == "11")
  }

  /** `GROUPE.astype(str).str.strip() == "11"` on a selected row. */
  predicate GroupeIs11(row: seq<Cell>)
  {
    |row| == |Expected| && GroupeText11(row[Groupe])
  }

  /** A GROUPE column pandas read as integers keeps exactly its rows of
      group 11, like one read as text. */
  lemma IntGroupeIs11(row: seq<Cell>, n: int)
    requires |row| == |Expected| && row[Groupe] == Int(n)
    ensures GroupeIs11(row) <==> n == 11
  {
    IntText11(n);
  }

  /** The row with its SEANCE parsed. */
  function SetSeance(row: seq<Cell>): (r: seq<Cell>)
    ensures |r| == |row|
    ensures |row| == |Expected| ==> r == row[Seance := ParseSeance(row[Seance])]
  {
    if |row| == |Expected| then row[Seance := ParseSeance(row[Seance])] else row
  }

  function MapSeance(rows: seq<seq<Cell>>): (r: seq<seq<Cell>>)
    ensures |r| == |rows| && forall i :: 0 <= i < |rows| ==> r[i] == SetSeance(rows[i])
  {
    seq(|rows|, i requires 0 <= i < |rows| => SetSeance(rows[i]))
  }

  /** `dropna(subset=["SEANCE", "CODE"])`. */
  predicate HasDateAndCode(row: seq<Cell>)
  {
    |row| == |Expected| && row[Seance].Day? && !row[Code].NaN?
  }

  function Dated(rows: seq<seq<Cell>>): seq<seq<Cell>>
  {
    Filter(MapSeance(rows), HasDateAndCode)
  }

  /** `dropna(subset=["CLOTURE"])`. */
  predicate HasClose(row: seq<Cell>)
  {
    |row| == |Expected| && row[Cloture].Num?
  }

  /** pandas' message when `to_datetime` is given two SEANCE columns. */
  const DuplicateKeys := "cannot assemble with duplicate keys"

  /** Python's message when `.str` is taken of two columns of one name. */
  const NoStrAccessor := "'DataFrame' object has no attribute 'str'"

  /** A numeric column (OUVERTURE to CAPITAUX) names more than one column. */
  predicate NumericTwice(names: seq<string>)
  {
    exists k :: Ouverture <= k < |Expected| && Duplicated(names, Expected[k])
  }

  /** _normalize, as a function: an error message for missing columns,
      for a SEANCE column that occurs twice (`to_datetime` gets a frame)
      and for a numeric column that occurs twice (`.str` of a frame), or
      the kept rows in the expected column order. */
  function NormalizedOf(f: Frame): Result<seq<seq<Cell>>, string>
    requires Rectangular(f)
  {
    var names := NormalizeNames(f.columns);
    var e := NormalizeError(names);
    if e.Some? then Err(e.value) else Ok(Kept(Selected(names, f.rows)))
  }

  /** The error _normalize raises for these cleaned names, whatever the
      rows hold: missing columns first, then a doubled SEANCE, then a
      doubled numeric column. */
  function NormalizeError(names: seq<string>): (r: Option<string>)
    ensures r.None? ==> HasExpected(names)
  {
    var missing := MissingColumns(names);
    if |missing| > 0 then Some(MissingMessage(missing))
    else if Duplicated(names, "SEANCE") then Some(DuplicateKeys)
    else if NumericTwice(names) then Some(NoStrAccessor)
    else None
  }

  /** _normalize: the frame is reassigned stage by stage, the numeric
      columns converted one after the other. */
  method Normalize(f: Frame) returns (r: Result<seq<seq<Cell>>, string>)
    requires Rectangular(f)
    ensures r == NormalizedOf(f)
  {
    var names := NormalizeNames(f.columns);
    var missing := MissingColumns(names);
    if |missing| > 0 {
      return Err(MissingMessage(missing));
    }
    NoneMissing(names);
    var rows := Selected(names, f.rows);
    rows := Filter(rows, GroupeIs11);
    if Duplicated(names, "SEANCE") {
      return Err(DuplicateKeys);
    }
    rows := Dated(rows);
    ghost var dated := rows;
    for i := 0 to |NumericColumns|
      invariant rows == CoercedUpTo(dated, i)
      invariant forall k :: Ouverture <= k < Ouverture + i ==> !Duplicated(names, Expected[k])
    {
      if Duplicated(names, Expected[Ouverture + i]) {
        assert NumericTwice(names);
        return Err(NoStrAccessor);
      }
      forall k | Ouverture <= k < Ouverture + i + 1
        ensures !Duplicated(names, Expected[k])
      {
      }
      assert CoercedUpTo(dated, i + 1) == CoerceColumn(CoercedUpTo(dated, i), NumericColumns[i]);
      rows := CoerceColumn(rows, NumericColumns[i]);
    }
    assert !NumericTwice(names);
    rows := Filter(rows, HasClose);
    return Ok(rows);
  }

  /** Normalising fails exactly when, after stripping and upper-casing
      the names, an expected column is missing, or SEANCE or a numeric
      column occurs twice. A missing column is reported first, with the
      list of them; then a doubled SEANCE. Whatever the rows hold, these
      are the only errors. */
  lemma NormalizeFails(f: Frame)
    requires Rectangular(f)
    ensures var names := NormalizeNames(f.columns);
      NormalizedOf(f).Err? <==>
        (exists c :: c in Expected && c !in names)
        || (exists i, j :: 0 <= i < j < |names| && names[i] == "SEANCE" && names[j] == "SEANCE")
        || (exists k :: Ouverture <= k < |Expected| && Duplicated(names, Expected[k]))
    ensures var names := NormalizeNames(f.columns);
      (exists c :: c in Expected && c !in names) ==> NormalizedOf(f) == Err(MissingMessage(MissingColumns(names)))
    ensures var names := NormalizeNames(f.columns);
      HasExpected(names) && Duplicated(names, "SEANCE") ==> NormalizedOf(f) == Err(DuplicateKeys)
  {
    var names := NormalizeNames(f.columns);
    DuplicatedMeans(names, "SEANCE");
    if exists c :: c in Expected && c !in names {
      var c :| c in Expected && c !in names;
      assert c in MissingColumns(names);
    } else {
      NoneMissing(names);
    }
  }

  /** A kept row: one cell per expected column, a session date, a code, a
      group "11", a closing price, and every numeric column a number or NaN. */
  predicate NormalRow(row: seq<Cell>)
  {
    |row| == |Expected| && row[Seance].Day? && !row[Code].NaN?
    && GroupeText11(row[Groupe])
    && row[Cloture].Num?
    && forall k :: Ouverture <= k < |Expected| ==> row[k].Num? || row[k].NaN?
  }

  /** The rows _normalize keeps from the selected rows. */
  function Kept(selected: seq<seq<Cell>>): seq<seq<Cell>>
  {
    Filter(CoercedUpTo(Dated(Filter(selected, GroupeIs11)), |NumericColumns|), HasClose)
  }

  lemma NormalizedIsKept(f: Frame)
    requires Rectangular(f) && NormalizedOf(f).Ok?
    ensures NormalizedOf(f).value == Kept(Selected(NormalizeNames(f.columns), f.rows))
  {
  }

  /** A dated row comes from a group-11 row and has a date and a code. */
  lemma {:induction false} DatedRow(grouped: seq<seq<Cell>>, d: seq<Cell>)
    requires forall g :: g in grouped ==> GroupeIs11(g)
    requires d in Dated(grouped)
    ensures HasDateAndCode(d) && GroupeText11(d[Groupe])
  {
    var m := MapSeance(grouped);
    assert d in m && HasDateAndCode(d);
    var j :| 0 <= j < |m| && m[j] == d;
    assert grouped[j] in grouped;
  }

  /** Converting the numeric columns of a dated row that keeps its close
      gives a normal row. */
  lemma {:induction false} CoercedRow(d: seq<Cell>)
    requires HasDateAndCode(d) && GroupeText11(d[Groupe])
    requires HasClose(CoerceRow(d, |NumericColumns|))
    ensures NormalRow(CoerceRow(d, |NumericColumns|))
  {
  }

  /** Every row _normalize keeps is a normal row. */
  lemma {:induction false} KeptRows(selected: seq<seq<Cell>>)
    ensures forall row :: row in Kept(selected) ==> NormalRow(row)
  {
    var grouped := Filter(selected, GroupeIs11);
    var dated := Dated(grouped);
    var coerced := CoercedUpTo(dated, |NumericColumns|);
    forall row | row in Kept(selected)
      ensures NormalRow(row)
    {
      assert row in coerced && HasClose(row);
      var k :| 0 <= k < |coerced| && coerced[k] == row;
      assert dated[k] in dated;
      DatedRow(grouped, dated[k]);
      CoercedRow(dated[k]);
    }
  }

  lemma NormalizedRows(f: Frame)
    requires Rectangular(f) && NormalizedOf(f).Ok?
    ensures forall row :: row in NormalizedOf(f).value ==> NormalRow(row)
  {
    NormalizedIsKept(f);
    KeptRows(Selected(NormalizeNames(f.columns), f.rows));
  }

  /** A selected row with every required part well formed is kept,
      converted. */
  lemma {:induction false} KeptContains(selected: seq<seq<Cell>>, s: seq<Cell>)
    requires s in selected
    requires GroupeIs11(s) && ParseSeance(s[Seance]).Day? && !s[Code].NaN? && CoerceCell(s[Cloture]).Num?
    ensures CoerceRow(SetSeance(s), |NumericColumns|) in Kept(selected)
  {
    var grouped := Filter(selected, GroupeIs11);
    assert s in grouped;
    var j :| 0 <= j < |grouped| && grouped[j] == s;
    var d := SetSeance(s);
    var m := MapSeance(grouped);
    assert m[j] == d;
    assert d in m && HasDateAndCode(d);
    var dated := Dated(grouped);
    assert d in dated;
    var k :| 0 <= k < |dated| && dated[k] == d;
    var coerced := CoercedUpTo(dated, |NumericColumns|);
    var row := CoerceRow(d, |NumericColumns|);
    assert coerced[k] == row;
    assert row in coerced && HasClose(row);
  }

  /** A file row with every required part well formed is kept, converted. */
  lemma NormalizeKeeps(f: Frame, i: nat)
    requires Rectangular(f) && NormalizedOf(f).Ok? && i < |f.rows|
    requires var s := SelectRow(NormalizeNames(f.columns), f.rows[i]);
      GroupeIs11(s) && ParseSeance(s[Seance]).Day? && !s[Code].NaN? && CoerceCell(s[Cloture]).Num?
    ensures CoerceRow(SetSeance(SelectRow(NormalizeNames(f.columns), f.rows[i])), |NumericColumns|)
      in NormalizedOf(f).value
  {
    var selected := Selected(NormalizeNames(f.columns), f.rows);
    assert selected[i] in selected;
    NormalizedIsKept(f);
    KeptContains(selected, selected[i]);
  }

  // ---------------------------------------------------------------------
  // load_all_files

  /** `cols` followed by the names of `more` it does not have yet. */
  function AddNew(cols: seq<string>, more: seq<string>): (r: seq<string>)
    ensures |cols| <= |r| && r[..|cols|] == cols
    ensures forall c :: c in r <==> c in cols || c in more
  {
    if |more| == 0 then cols
    else
      var front := AddNew(cols, more[..|more| - 1]);
      var c := more[|more| - 1];
      assert forall x :: x in more <==> x in more[..|more| - 1] || x == c;
      if c in front then front else front + [c]
  }

  /** The columns of `pd.concat`: every frame's names, in order of first
      appearance. */
  function UnionColumns(frames: seq<Frame>): (r: seq<string>)
    ensures forall i, c :: 0 <= i < |frames| && c in frames[i].columns ==> c in r
  {
    if |frames| == 0 then []
    else
      var front := frames[..|frames| - 1];
      var r := AddNew(UnionColumns(front), frames[|frames| - 1].columns);
      assert forall i :: 0 <= i < |front| ==> front[i] == frames[i];
      r
  }

  /** A cell of a column pandas holds as numbers: an integer, a float or
      NaN. */
  predicate NumberCell(c: Cell)
  {
    c.Int? || c.Num? || c.NaN?
  }

  /** Column `c` of `f`, if `f` has it, holds numbers only. */
  predicate NumbersIn(f: Frame, c: string)
    requires Rectangular(f)
  {
    c in f.columns ==> forall i :: 0 <= i < |f.rows| ==> NumberCell(f.rows[i][ColumnIndex(f.columns, c).value])
  }

  /** `f` brings a missing value into column `c` of the concatenation: it
      has rows but not the column, or it holds a float or NaN there. (A
      frame without rows adds no value to any column.) */
  predicate BringsFloat(f: Frame, c: string)
    requires Rectangular(f)
  {
    if c in f.columns then exists i :: 0 <= i < |f.rows| && (f.rows[i][ColumnIndex(f.columns, c).value].Num?
                                                          || f.rows[i][ColumnIndex(f.columns, c).value].NaN?)
    else |f.rows| > 0
  }

  /** `pd.concat` gives column `c` the float dtype: every frame holds only
      numbers in it, and some frame brings a float or a missing value, which
      an integer column cannot hold. A text cell anywhere makes the column
      an object column instead, whose integers stay integers. */
  predicate Promoted(frames: seq<Frame>, c: string)
    requires AllRectangular(frames)
  {
    (forall i :: 0 <= i < |frames| ==> NumbersIn(frames[i], c))
    && exists i :: 0 <= i < |frames| && BringsFloat(frames[i], c)
  }

  /** The target columns the concatenation turns into floats. */
  function PromotedColumns(frames: seq<Frame>, target: seq<string>): (r: set<string>)
    requires AllRectangular(frames)
    ensures forall c :: c in r <==> c in target && Promoted(frames, c)
  {
    set c | c in target && Promoted(frames, c)
  }

  /** A cell of a float column: an integer becomes a float. */
  function Widen(c: Cell, promoted: bool): (r: Cell)
    ensures promoted && NumberCell(c) ==> r.Num? || r.NaN?
    ensures !promoted || !c.Int? ==> r == c
  {
    if promoted && c.Int? then Num(c.n as real) else c
  }

  /** A row re-laid over `target`: each target column takes the frame's
      first column of that name, widened when the column is `promoted`, or
      NaN when the frame lacks it. */
  function AlignRow(cols: seq<string>, row: seq<Cell>, target: seq<string>, promoted: set<string>): (r: seq<Cell>)
    requires |row| == |cols|
    ensures |r| == |target|
    ensures forall k :: 0 <= k < |target| ==>
      r[k] == (if target[k] in cols then Widen(row[ColumnIndex(cols, target[k]).value], target[k] in promoted) else NaN)
  {
    seq(|target|, k requires 0 <= k < |target| =>
      var j := ColumnIndex(cols, target[k]);
      if j.Some? then Widen(row[j.value], target[k] in promoted) else NaN)
  }

  function AlignedRows(f: Frame, target: seq<string>, promoted: set<string>): (r: seq<seq<Cell>>)
    requires Rectangular(f)
    ensures |r| == |f.rows| && forall i :: 0 <= i < |r| ==> r[i] == AlignRow(f.columns, f.rows[i], target, promoted)
  {
    seq(|f.rows|, i requires 0 <= i < |f.rows| => AlignRow(f.columns, f.rows[i], target, promoted))
  }

  predicate AllRectangular(frames: seq<Frame>)
  {
    forall i :: 0 <= i < |frames| ==> Rectangular(frames[i])
  }

  function TotalRows(frames: seq<Frame>): nat
  {
    if |frames| == 0 then 0 else TotalRows(frames[..|frames| - 1]) + |frames[|frames| - 1].rows|
  }

  /** The rows of every frame in turn, each re-laid over `target`. */
  function ConcatRows(frames: seq<Frame>, target: seq<string>, promoted: set<string>): (r: seq<seq<Cell>>)
    requires AllRectangular(frames)
    ensures |r| == TotalRows(frames)
    ensures forall i :: 0 <= i < |r| ==> |r[i]| == |target|
  {
    if |frames| == 0 then []
    else
      var front := frames[..|frames| - 1];
      assert forall i :: 0 <= i < |front| ==> front[i] == frames[i];
      ConcatRows(front, target, promoted) + AlignedRows(frames[|frames| - 1], target, promoted)
  }

  /** `pd.concat(frames, ignore_index=True)`: the union of the columns, the
      rows of every frame in turn, and the integers of a column that becomes
      a float column turned into floats. */
  function Concat(frames: seq<Frame>): (r: Frame)
    requires AllRectangular(frames)
    ensures Rectangular(r) && |r.rows| == TotalRows(frames)
    ensures r.columns == UnionColumns(frames)
  {
    var target := UnionColumns(frames);
    Frame(target, ConcatRows(frames, target, PromotedColumns(frames, target)))
  }

  /** A column whose every frame holds numbers only, once promoted, holds
      no integer in any concatenated row. */
  lemma {:induction false} PromotedColumnHoldsFloats(frames: seq<Frame>, target: seq<string>, promoted: set<string>,
                                                     k: nat)
    requires AllRectangular(frames) && k < |target| && target[k] in promoted
    requires forall i :: 0 <= i < |frames| ==> NumbersIn(frames[i], target[k])
    ensures forall row: seq<Cell> :: row in ConcatRows(frames, target, promoted) ==> row[k].Num? || row[k].NaN?
  {
    if |frames| > 0 {
      var front := frames[..|frames| - 1];
      var last := frames[|frames| - 1];
      assert forall i :: 0 <= i < |front| ==> front[i] == frames[i];
      PromotedColumnHoldsFloats(front, target, promoted, k);
      var aligned := AlignedRows(last, target, promoted);
      forall row: seq<Cell> | row in aligned
        ensures row[k].Num? || row[k].NaN?
      {
        var i :| 0 <= i < |aligned| && aligned[i] == row;
        if target[k] in last.columns {
          assert NumberCell(last.rows[i][ColumnIndex(last.columns, target[k]).value]);
        }
      }
    }
  }

  /** When the concatenation turns the GROUPE column into floats, as a
      blank GROUPE cell or a file without that column does, every GROUPE
      text is "11.0" or "nan", never "11": loading keeps no row at all. */
  lemma PromotedGroupeKeepsNothing(frames: seq<Frame>)
    requires AllRectangular(frames)
    requires var target := UnionColumns(frames);
      var g := ColumnIndex(NormalizeNames(target), "GROUPE");
      g.Some? && Promoted(frames, target[g.value])
    ensures LoadAllFiles(frames).Ok? ==> LoadAllFiles(frames).value == []
  {
    var f := Concat(frames);
    var target := UnionColumns(frames);
    var names := NormalizeNames(target);
    var g := ColumnIndex(names, "GROUPE").value;
    PromotedColumnHoldsFloats(frames, target, PromotedColumns(frames, target), g);
    if |frames| > 0 && NormalizedOf(f).Ok? {
      NormalizedIsKept(f);
      assert forall i :: 0 <= i < |f.rows| ==> f.rows[i] in f.rows;
      FloatGroupeKeepsNothing(names, f.rows, g);
    }
  }

  /** Rows whose first GROUPE cell is a float or NaN keep nothing. */
  lemma FloatGroupeKeepsNothing(names: seq<string>, rows: seq<seq<Cell>>, g: nat)
    requires HasExpected(names) && ColumnIndex(names, "GROUPE") == Some(g)
    requires forall i :: 0 <= i < |rows| ==> |rows[i]| == |names| && (rows[i][g].Num? || rows[i][g].NaN?)
    ensures Kept(Selected(names, rows)) == []
  {
    SelectedNotEleven(names, rows, g);
    KeptNone(Selected(names, rows));
  }

  /** No selected row of such rows is of group 11. */
  lemma SelectedNotEleven(names: seq<string>, rows: seq<seq<Cell>>, g: nat)
    requires HasExpected(names) && ColumnIndex(names, "GROUPE") == Some(g)
    requires forall i :: 0 <= i < |rows| ==> |rows[i]| == |names| && (rows[i][g].Num? || rows[i][g].NaN?)
    ensures forall i :: 0 <= i < |Selected(names, rows)| ==> !GroupeIs11(Selected(names, rows)[i])
  {
    var selected := Selected(names, rows);
    forall i | 0 <= i < |selected|
      ensures !GroupeIs11(selected[i])
    {
      assert selected[i] == SelectRow(names, rows[i]);
      GroupeCell(names, rows[i], g);
    }
  }

  /** Rows none of which is of group 11 keep nothing. */
  lemma KeptNone(selected: seq<seq<Cell>>)
    requires forall i :: 0 <= i < |selected| ==> !GroupeIs11(selected[i])
    ensures Kept(selected) == []
  {
    FilterNone(selected, GroupeIs11);
    assert |MapSeance([])| == 0;
    assert |CoercedUpTo(Dated([]), |NumericColumns|)| == 0;
  }

  /** The GROUPE cell of a selected row is the row's first GROUPE cell. */
  lemma GroupeCell(names: seq<string>, row: seq<Cell>, g: nat)
    requires HasExpected(names) && ColumnIndex(names, "GROUPE") == Some(g) && |row| == |names|
    ensures SelectRow(names, row)[Groupe] == row[g]
  {
    assert Expected[Groupe] == "GROUPE";
  }

  /** load_all_files: no file gives an empty frame (its rows: none);
      otherwise the concatenation, normalised. */
  function LoadAllFiles(frames: seq<Frame>): (r: Result<seq<seq<Cell>>, string>)
    requires AllRectangular(frames)
    ensures |frames| == 0 ==> r == Ok([])
    ensures |frames| > 0 ==> r == NormalizedOf(Concat(frames))
  {
    if |frames| == 0 then Ok([]) else NormalizedOf(Concat(frames))
  }

  // ---------------------------------------------------------------------
  // Stocks and prices

  datatype Stock = Stock(id: nat, code: string, name: string, groupe: int)

  /** A price row: NaN prices are None. */
  datatype PriceRecord = PriceRecord(stockId: nat, date: Date, open: Option<real>, high: Option<real>, low: Option<real>,
                                     close: real, volume: int, transactions: int, capital: Option<real>)

  /** `str(cell).strip()` for a code or name cell: text stripped, an
      integer's decimal text, a float's text as `floatText` gives it, and
      NaN's "nan" (a session date occurs only under SEANCE). */
  function KeyText(c: Cell, floatText: real -> string): (r: string)
    ensures c.Str? ==> r == Strip(c.s)
    ensures c.Int? ==> r == IntText(c.n)
    ensures c.NaN? ==> r == "nan"
  {
    match c
    case Str(s) => Strip(s)
    case Int(n) => IntText(n)
    case Num(x) => Strip(floatText(x))
    case Day(_) => "nan"
    case NaN => "nan"
  }

  /** The first stored stock with the code. */
  function FirstWithCode(stocks: seq<Stock>, code: string): (r: Option<nat>)
    ensures r.Some? ==> r.value < |stocks| && stocks[r.value].code == code
    ensures r.None? ==> forall i :: 0 <= i < |stocks| ==> stocks[i].code != code
  {
    if |stocks| == 0 then None
    else if stocks[0].code == code then Some(0)
    else
      var r := FirstWithCode(stocks[1..], code);
      if r.None? then None else Some(r.value + 1)
  }

  function MaxId(stocks: seq<Stock>): (r: nat)
    ensures forall i :: 0 <= i < |stocks| ==> stocks[i].id <= r
  {
    if |stocks| == 0 then 0
    else
      var m := MaxId(stocks[..|stocks| - 1]);
      var last := stocks[|stocks| - 1].id;
      if last > m then last else m
  }

  /** The id SQLite gives the next row: one more than the largest. */
  function NextId(stocks: seq<Stock>): (r: nat)
    ensures r >= 1 && forall i :: 0 <= i < |stocks| ==> stocks[i].id < r
  {
    MaxId(stocks) + 1
  }

  /** _get_or_create_stock: the table afterwards and the stock. */
  function StockFor(stocks: seq<Stock>, code: string, name: string): (r: (seq<Stock>, Stock))
  {
    var i := FirstWithCode(stocks, code);
    if i.Some? then
      var s := stocks[i.value];
      if s.name != name then (stocks[i.value := s.(name := name)], s.(name := name)) else (stocks, s)
    else
      var s := Stock(NextId(stocks), code, name, 11);
      (stocks + [s], s)
  }

  /** A stored stock keeps its id and group and takes the new name; a new
      one gets a fresh id and group 11. Either way the stock is in the
      table with the code and name asked for, and every earlier stock keeps
      its place, id and code. */
  lemma StockForFacts(stocks: seq<Stock>, code: string, name: string)
    ensures var r := StockFor(stocks, code, name);
      r.1.code == code && r.1.name == name && r.1 in r.0
      && |stocks| <= |r.0| <= |stocks| + 1
      && (forall i :: 0 <= i < |stocks| ==> r.0[i].id == stocks[i].id && r.0[i].code == stocks[i].code)
      && (FirstWithCode(stocks, code).Some? ==>
            |r.0| == |stocks| && r.1.id == stocks[FirstWithCode(stocks, code).value].id
            && r.1.groupe == stocks[FirstWithCode(stocks, code).value].groupe)
      && (FirstWithCode(stocks, code).None? ==>
            r.0 == stocks + [r.1] && r.1.groupe == 11 && forall i :: 0 <= i < |stocks| ==> stocks[i].id != r.1.id)
  {
    var r := StockFor(stocks, code, name);
    var i := FirstWithCode(stocks, code);
    if i.Some? {
      assert r.0[i.value] == r.1;
    } else {
      assert r.0[|stocks|] == r.1;
    }
  }

  /** `int(x)`: truncation toward zero. */
  function Trunc(x: real): int
  {
    if x >= 0.0 then x.Floor else -((-x).Floor)
  }

  function FloatCell(c: Cell): Option<real>
  {
    if c.Num? then Some(c.x) else None
  }

  /** `int(row[col] or 0)` as written: zero is falsy and becomes 0, but NaN
      is truthy and int(NaN) raises. */
  function IntOrZeroAsWritten(c: Cell): Result<int, string>
  {
    if c.Num? then Ok(Trunc(c.x)) else Err("cannot convert float NaN to integer")
  }

  /** The PriceData of a kept row, as written. */
  function RecordAsWritten(row: seq<Cell>, stockId: nat): (r: Result<PriceRecord, string>)
    requires NormalRow(row)
    ensures r.Err? <==> row[Quantite].NaN? || row[NbTransaction].NaN?
    ensures r.Ok? ==> r.value.stockId == stockId && r.value.close == row[Cloture].x
  {
    var volume := IntOrZeroAsWritten(row[Quantite]);
    var transactions := IntOrZeroAsWritten(row[NbTransaction]);
    if volume.Err? then Err(volume.error)
    else if transactions.Err? then Err(transactions.error)
    else Ok(PriceRecord(stockId, row[Seance].date, FloatCell(row[Ouverture]), FloatCell(row[PlusHaut]),
                        FloatCell(row[PlusBas]), row[Cloture].x, volume.value, transactions.value,
                        FloatCell(row[Capitaux])))
  }

  /** A quantity that is not a number ("-", or an empty cell) survives
      normalisation as NaN and then makes the as-written conversion raise. */
  lemma NaNQuantityRaises(row: seq<Cell>, stockId: nat)
    requires NormalRow(row) && row[Quantite] == CoerceCell(Str("-"))
    ensures RecordAsWritten(row, stockId).Err?
  {
    assert Remove(Replace("-", ',', '.'), ' ') == "-" by {
      assert Replace("-", ',', '.') == "-";
      RemoveAbsent("-", ' ');
    }
    assert Decimal("-") == None by {
      assert "-"[1..] == "";
    }
  }

  /** `int(row[col] or 0)` as intended: a missing count is 0. */
  function IntOrZero(c: Cell): (r: int)
    ensures c.NaN? ==> r == 0
    ensures c.Num? && c.x >= 0.0 ==> r == c.x.Floor
  {
    if c.Num? then Trunc(c.x) else 0
  }

  /** The PriceData of a kept row, with missing counts as 0. */
  function RecordOf(row: seq<Cell>, stockId: nat): (r: PriceRecord)
    requires NormalRow(row)
    ensures r.stockId == stockId && r.date == row[Seance].date && r.close == row[Cloture].x
    ensures RecordAsWritten(row, stockId).Ok? ==> r == RecordAsWritten(row, stockId).value
  {
    PriceRecord(stockId, row[Seance].date, FloatCell(row[Ouverture]), FloatCell(row[PlusHaut]),
                FloatCell(row[PlusBas]), row[Cloture].x, IntOrZero(row[Quantite]), IntOrZero(row[NbTransaction]),
                FloatCell(row[Capitaux]))
  }

  /** The group key of a row: its CODE and VALEUR cells. */
  function Key(row: seq<Cell>): (Cell, Cell)
    requires |row| == |Expected|
  {
    (row[Code], row[Valeur])
  }

  predicate AllNormal(rows: seq<seq<Cell>>)
  {
    forall i :: 0 <= i < |rows| ==> NormalRow(rows[i])
  }

  /** Every row has the expected number of cells. */
  predicate AllSized(rows: seq<seq<Cell>>)
  {
    forall i :: 0 <= i < |rows| ==> |rows[i]| == |Expected|
  }

  /** The distinct keys of `df.groupby(["CODE", "VALEUR"], dropna=False)`,
      in order of first appearance. */
  function KeysOf(rows: seq<seq<Cell>>): (r: seq<(Cell, Cell)>)
    requires AllSized(rows)
    ensures forall i, j :: 0 <= i < j < |r| ==> r[i] != r[j]
    ensures forall i :: 0 <= i < |rows| ==> Key(rows[i]) in r
  {
    if |rows| == 0 then []
    else
      var front := rows[..|rows| - 1];
      var keys := KeysOf(front);
      var k := Key(rows[|rows| - 1]);
      assert forall i :: 0 <= i < |front| ==> front[i] == rows[i];
      if k in keys then keys else keys + [k]
  }

  function HasKey(key: (Cell, Cell)): seq<Cell> -> bool
  {
    (row: seq<Cell>) => |row| == |Expected| && Key(row) == key
  }

  /** One group: the rows with the key, in order. */
  function GroupOf(rows: seq<seq<Cell>>, key: (Cell, Cell)): (r: seq<seq<Cell>>)
    requires AllNormal(rows)
    ensures AllNormal(r) && |r| == Count(rows, HasKey(key))
  {
    var r := Filter(rows, HasKey(key));
    assert forall i :: 0 <= i < |r| ==> r[i] in rows;
    r
  }

  /** The records of a group. */
  function RecordsOf(group: seq<seq<Cell>>, stockId: nat): (r: seq<PriceRecord>)
    requires AllNormal(group)
    ensures |r| == |group|
    ensures forall i :: 0 <= i < |r| ==> r[i] == RecordOf(group[i], stockId)
  {
    seq(|group|, i requires 0 <= i < |group| => RecordOf(group[i], stockId))
  }

  /** The state after the first groups: stocks, prices and the two counts. */
  datatype Loading = Loading(stocks: seq<Stock>, prices: seq<PriceRecord>, stockCount: nat, priceCount: nat)

  /** One group loaded: its stock fetched or created, its rows added. */
  function LoadStep(rows: seq<seq<Cell>>, front: Loading, key: (Cell, Cell), floatText: real -> string): (r: Loading)
    requires AllNormal(rows)
    ensures r.stockCount == front.stockCount + 1
    ensures r.priceCount == front.priceCount + Count(rows, HasKey(key))
    ensures |r.prices| == |front.prices| + Count(rows, HasKey(key))
  {
    var sf := StockFor(front.stocks, KeyText(key.0, floatText), KeyText(key.1, floatText));
    var records := RecordsOf(GroupOf(rows, key), sf.1.id);
    Loading(sf.0, front.prices + records, front.stockCount + 1, front.priceCount + |records|)
  }

  function LoadGroups(rows: seq<seq<Cell>>, keys: seq<(Cell, Cell)>, start: Loading, floatText: real -> string): (r: Loading)
    requires AllNormal(rows)
  {
    if |keys| == 0 then start
    else LoadStep(rows, LoadGroups(rows, keys[..|keys| - 1], start, floatText), keys[|keys| - 1], floatText)
  }

  /** One more key is one more step. */
  lemma LoadGroupsStep(rows: seq<seq<Cell>>, keys: seq<(Cell, Cell)>, i: nat, start: Loading, floatText: real -> string)
    requires AllNormal(rows) && i < |keys|
    ensures LoadGroups(rows, keys[..i + 1], start, floatText)
            == LoadStep(rows, LoadGroups(rows, keys[..i], start, floatText), keys[i], floatText)
  {
    assert keys[..i + 1][..i] == keys[..i];
  }

  /** One stock per key, and the group sizes added up. */
  lemma {:induction false} LoadGroupsCounts(rows: seq<seq<Cell>>, keys: seq<(Cell, Cell)>, start: Loading,
                                            floatText: real -> string)
    requires AllNormal(rows)
    ensures LoadGroups(rows, keys, start, floatText).stockCount == start.stockCount + |keys|
    ensures LoadGroups(rows, keys, start, floatText).priceCount == start.priceCount + SumCounts(rows, keys)
    ensures |LoadGroups(rows, keys, start, floatText).prices| == |start.prices| + SumCounts(rows, keys)
  {
    if |keys| > 0 {
      LoadGroupsCounts(rows, keys[..|keys| - 1], start, floatText);
    }
  }

  /** The total size of the groups of `keys`. */
  function SumCounts(rows: seq<seq<Cell>>, keys: seq<(Cell, Cell)>): nat
  {
    if |keys| == 0 then 0 else SumCounts(rows, keys[..|keys| - 1]) + Count(rows, HasKey(keys[|keys| - 1]))
  }

  /** One more row adds one to the group of its key, and nothing to the
      others. */
  lemma {:induction false} SumCountsStep(rows: seq<seq<Cell>>, x: seq<Cell>, keys: seq<(Cell, Cell)>)
    requires |x| == |Expected|
    requires forall i, j :: 0 <= i < j < |keys| ==> keys[i] != keys[j]
    ensures SumCounts(rows + [x], keys) == SumCounts(rows, keys) + (if Key(x) in keys then 1 else 0)
  {
    if |keys| > 0 {
      var front := keys[..|keys| - 1];
      var k := keys[|keys| - 1];
      SumCountsStep(rows, x, front);
      assert (rows + [x])[..|rows|] == rows;
      assert Count(rows + [x], HasKey(k)) == Count(rows, HasKey(k)) + (if Key(x) == k then 1 else 0);
      assert Key(x) in keys <==> Key(x) in front || Key(x) == k;
      if Key(x) == k {
        assert Key(x) !in front by {
          assert forall i :: 0 <= i < |front| ==> front[i] == keys[i];
        }
      }
    }
  }

  /** No row with the key: an empty group. */
  lemma {:induction false} CountNone(rows: seq<seq<Cell>>, key: (Cell, Cell))
    requires forall i :: 0 <= i < |rows| ==> !HasKey(key)(rows[i])
    ensures Count(rows, HasKey(key)) == 0
  {
    if |rows| > 0 {
      CountNone(rows[..|rows| - 1], key);
    }
  }

  /** The groups of all the keys hold every row exactly once. */
  lemma {:induction false} GroupsCoverRows(rows: seq<seq<Cell>>)
    requires AllSized(rows)
    ensures SumCounts(rows, KeysOf(rows)) == |rows|
  {
    if |rows| > 0 {
      var front := rows[..|rows| - 1];
      var x := rows[|rows| - 1];
      assert AllSized(front) by {
        forall i | 0 <= i < |front| ensures |front[i]| == |Expected| {
          assert front[i] == rows[i];
        }
      }
      GroupsCoverRows(front);
      var keys := KeysOf(front);
      assert SumCounts(rows, keys) == |front| + (if Key(x) in keys then 1 else 0) by {
        assert rows == front + [x];
        SumCountsStep(front, x, keys);
      }
      if Key(x) !in keys {
        assert Count(rows, HasKey(Key(x))) == 1 by {
          assert forall i :: 0 <= i < |front| ==> Key(front[i]) in keys;
          CountNone(front, Key(x));
        }
        assert KeysOf(rows) == keys + [Key(x)];
        assert (keys + [Key(x)])[..|keys|] == keys;
      } else {
        assert KeysOf(rows) == keys;
      }
    }
  }

  /** Every loaded row is a normal row. */
  lemma {:induction false} LoadedNormal(frames: seq<Frame>)
    requires AllRectangular(frames) && LoadAllFiles(frames).Ok?
    ensures AllNormal(LoadAllFiles(frames).value)
  {
    if |frames| > 0 {
      var f := Concat(frames);
      var rows := NormalizedOf(f).value;
      NormalizedRows(f);
      forall i | 0 <= i < |rows|
        ensures NormalRow(rows[i])
      {
        assert rows[i] in rows;
      }
    }
  }

  /** `df.groupby(["CODE", "VALEUR"])` when, after cleaning, a key names
      several columns: pandas refuses the first such key. */
  function GrouperError(names: seq<string>): (r: Option<string>)
    ensures r.None? <==> !Duplicated(names, "CODE") && !Duplicated(names, "VALEUR")
  {
    if Duplicated(names, "CODE") then Some("Grouper for 'CODE' not 1-dimensional")
    else if Duplicated(names, "VALEUR") then Some("Grouper for 'VALEUR' not 1-dimensional")
    else None
  }

  /** load_data, as a function: the counts, the stocks and the prices
      afterwards. A ValueError from the files, or from grouping a frame
      with two CODE or two VALEUR columns, leaves the tables as they
      were. */
  function LoadDataOf(frames: seq<Frame>, stocks: seq<Stock>, prices: seq<PriceRecord>, floatText: real -> string)
    : (r: (Result<(nat, nat), string>, seq<Stock>, seq<PriceRecord>))
    requires AllRectangular(frames)
  {
    var loaded := LoadAllFiles(frames);
    if loaded.Err? then (Err(loaded.error), stocks, prices)
    else if |loaded.value| == 0 then (Ok((0, 0)), stocks, prices)
    else if GrouperError(NormalizeNames(UnionColumns(frames))).Some? then
      (Err(GrouperError(NormalizeNames(UnionColumns(frames))).value), stocks, prices)
    else
      LoadedNormal(frames);
      var done := LoadGroups(loaded.value, KeysOf(loaded.value), Loading(stocks, prices, 0, 0), floatText);
      (Ok((done.stockCount, done.priceCount)), done.stocks, done.prices)
  }

  /** With the files loaded, no row gives no counts and no change; rows
      whose CODE or VALEUR names two columns give the grouping error and no
      change; otherwise one stock is counted per (CODE, VALEUR) group and
      one price per kept row, and exactly that many price rows are added. */
  lemma {:induction false} LoadDataCounts(frames: seq<Frame>, stocks: seq<Stock>, prices: seq<PriceRecord>,
                                          floatText: real -> string)
    requires AllRectangular(frames) && LoadAllFiles(frames).Ok?
    ensures var r := LoadDataOf(frames, stocks, prices, floatText);
      var rows := LoadAllFiles(frames).value;
      var names := NormalizeNames(UnionColumns(frames));
      && (|rows| == 0 ==> r == (Ok((0, 0)), stocks, prices))
      && (|rows| > 0 && (Duplicated(names, "CODE") || Duplicated(names, "VALEUR")) ==>
            r.0.Err? && r.1 == stocks && r.2 == prices)
      && (|rows| > 0 && !Duplicated(names, "CODE") && !Duplicated(names, "VALEUR") ==>
            r.0.Ok? && r.0.value.1 == |rows| && |r.2| == |prices| + |rows|
            && AllNormal(rows) && r.0.value.0 == |KeysOf(rows)|)
  {
    var rows := LoadAllFiles(frames).value;
    var names := NormalizeNames(UnionColumns(frames));
    var r := LoadDataOf(frames, stocks, prices, floatText);
    if |rows| > 0 {
      if GrouperError(names).None? {
        LoadedNormal(frames);
        var done := LoadGroups(rows, KeysOf(rows), Loading(stocks, prices, 0, 0), floatText);
        assert r == (Ok((done.stockCount, done.priceCount)), done.stocks, done.prices);
        LoadGroupsCounts(rows, KeysOf(rows), Loading(stocks, prices, 0, 0), floatText);
        GroupsCoverRows(rows);
      } else {
        assert r == (Err(GrouperError(names).value), stocks, prices);
      }
    }
  }

  /** The session: the stocks and price_data tables. */
  class Database {
    var stocks: seq<Stock>
    var prices: seq<PriceRecord>

    constructor (stocks0: seq<Stock>, prices0: seq<PriceRecord>)
      ensures stocks == stocks0 && prices == prices0
    {
      stocks := stocks0;
      prices := prices0;
    }

    /** _get_or_create_stock. */
    method GetOrCreateStock(code: string, name: string) returns (stock: Stock)
      modifies this
      ensures (stocks, stock) == StockFor(old(stocks), code, name)
      ensures prices == old(prices)
    {
      var i := FirstWithCode(stocks, code);
      if i.Some? {
        stock := stocks[i.value];
        if stock.name != name {
          stock := stock.(name := name);
          stocks := stocks[i.value := stock];
        }
        return;
      }
      stock := Stock(NextId(stocks), code, name, 11);
      stocks := stocks + [stock];
    }

    /** The rows of one group added as prices of the stock. */
    method AddGroup(group: seq<seq<Cell>>, stockId: nat) returns (added: nat)
      requires AllNormal(group)
      modifies this
      ensures prices == old(prices) + RecordsOf(group, stockId) && stocks == old(stocks)
      ensures added == |group|
    {
      var records: seq<PriceRecord> := [];
      for j := 0 to |group|
        invariant |records| == j
        invariant forall k :: 0 <= k < j ==> records[k] == RecordOf(group[k], stockId)
      {
        records := records + [RecordOf(group[j], stockId)];
      }
      assert records == RecordsOf(group, stockId);
      prices := prices + records;
      added := |records|;
    }

    /** One group: the stock fetched or created, the rows added. */
    method LoadGroup(rows: seq<seq<Cell>>, key: (Cell, Cell), stockCount: nat, priceCount: nat, floatText: real -> string)
      returns (stockCount': nat, priceCount': nat)
      requires AllNormal(rows)
      modifies this
      ensures Loading(stocks, prices, stockCount', priceCount')
              == LoadStep(rows, Loading(old(stocks), old(prices), stockCount, priceCount), key, floatText)
    {
      var stock := GetOrCreateStock(KeyText(key.0, floatText), KeyText(key.1, floatText));
      var added := AddGroup(GroupOf(rows, key), stock.id);
      stockCount' := stockCount + 1;
      priceCount' := priceCount + added;
    }

    /** The loop over the (CODE, VALEUR) groups. */
    method LoadGroupsInto(rows: seq<seq<Cell>>, floatText: real -> string) returns (stockCount: nat, priceCount: nat)
      requires AllNormal(rows)
      modifies this
      ensures Loading(stocks, prices, stockCount, priceCount)
              == LoadGroups(rows, KeysOf(rows), Loading(old(stocks), old(prices), 0, 0), floatText)
    {
      var keys := KeysOf(rows);
      stockCount := 0;
      priceCount := 0;
      ghost var start := Loading(stocks, prices, 0, 0);
      for i := 0 to |keys|
        invariant Loading(stocks, prices, stockCount, priceCount) == LoadGroups(rows, keys[..i], start, floatText)
      {
        LoadGroupsStep(rows, keys, i, start, floatText);
        stockCount, priceCount := LoadGroup(rows, keys[i], stockCount, priceCount, floatText);
      }
      assert keys[..|keys|] == keys;
    }

    /** load_data: the files are loaded and normalised; an empty result
        changes nothing; otherwise each group's stock is fetched or created
        and the group's rows are added as prices. */
    method LoadData(frames: seq<Frame>, floatText: real -> string) returns (r: Result<(nat, nat), string>)
      requires AllRectangular(frames)
      modifies this
      ensures (r, stocks, prices) == LoadDataOf(frames, old(stocks), old(prices), floatText)
    {
      var loaded: Result<seq<seq<Cell>>, string>;
      var columns: seq<string>;
      if |frames| == 0 {
        loaded := Ok([]);
        columns := Expected;
      } else {
        var combined := Concat(frames);
        loaded := Normalize(combined);
        columns := NormalizeNames(combined.columns);
      }
      assert loaded == LoadAllFiles(frames);
      if loaded.Err? {
        return Err(loaded.error);
      }
      var rows := loaded.value;
      if |rows| == 0 {
        return Ok((0, 0));
      }
      var grouper := GrouperError(columns);
      if grouper.Some? {
        return Err(grouper.value);
      }
      LoadedNormal(frames);
      var stockCount, priceCount := LoadGroupsInto(rows, floatText);
      return Ok((stockCount, priceCount));
    }
  }
}
