/**
  The persistence formats of modules/common/file_worker.py: the CSV header names, the
  `[key] -> [value]` dictionary lines, the one-item-per-line lists, and the guards of
  `save` and `load`. A text file is modelled as the sequence of its lines as Python's
  line iteration yields them (each with its trailing "\n"); a CSV file as the sequence
  of its records as the csv module reads them back.
*/
module FileWorker {
  import opened Builtins

  // ---------------------------------------------------------------------------
  // Column names
  // ---------------------------------------------------------------------------

  /** convert_column_name: strip, '  ' then ' ' to '_', lower case. */
  function ConvertColumnName(name: string): string {
    Lower(ReplaceAll(ReplaceAll(Strip(name), "  ", "_"), " ", "_"))
  }

  /** convert_namedtuple_fields_name: '_' to ' ', then title case. */
  function ConvertNamedtupleFieldsName(name: string): string {
    Title(ReplaceAll(name, "_", " "))
  }

  predicate IsFieldChar(c: char) {
    'a' <= c <= 'z' || '0' <= c <= '9' || c == '_'
  }

  /** A namedtuple field name as the project writes them: lower-case words joined by
      single underscores. */
  predicate IsFieldName(f: string) {
    && (forall i :: 0 <= i < |f| ==> IsFieldChar(f[i]))
    && (f != [] ==> f[0] != '_' && f[|f| - 1] != '_')
    && (forall i :: 0 <= i < |f| - 1 ==> !(f[i] == '_' && f[i + 1] == '_'))
  }

  /** Character by character, the column written for a field: a space where the field
      has '_', otherwise a character whose lower form is the field's. */
  lemma TitledFieldAt(f: string, i: nat)
    requires IsFieldName(f) && i < |f|
    ensures var t := ConvertNamedtupleFieldsName(f);
      && |t| == |f|
      && (f[i] == '_' ==> t[i] == ' ')
      && (f[i] != '_' ==> !IsSpace(t[i]) && LowerChar(t[i]) == f[i])
  {
    ReplaceCharIsMap(f, '_', ' ');
    var m := MapChar(f, '_', ' ');
    TitleAt(m, false, i);
    assert IsFieldChar(f[i]);
  }

  /** The column written for a field, character by character. */
  lemma TitledFieldChars(f: string)
    requires IsFieldName(f)
    ensures var t := ConvertNamedtupleFieldsName(f);
      && |t| == |f|
      && (forall i :: 0 <= i < |f| ==> (t[i] == ' ' <==> f[i] == '_'))
      && (forall i :: 0 <= i < |f| && f[i] != '_' ==> !IsSpace(t[i]) && LowerChar(t[i]) == f[i])
  {
    forall i | 0 <= i < |f| {
      TitledFieldAt(f, i);
    }
  }

  lemma TwoSpacesAt(t: string, i: int)
    requires OccursAt(t, "  ", i)
    ensures 0 <= i < |t| - 1 && t[i] == ' ' && t[i + 1] == ' '
  {
    assert t[i..i + 2][0] == t[i];
    assert t[i..i + 2][1] == t[i + 1];
  }

  /** Two spaces in a row would come from two underscores in a row. */
  lemma NoDoubleSpace(t: string, f: string)
    requires |t| == |f| && forall i :: 0 <= i < |f| ==> (t[i] == ' ' <==> f[i] == '_')
    requires forall i :: 0 <= i < |f| - 1 ==> !(f[i] == '_' && f[i + 1] == '_')
    ensures !Contains(t, "  ")
  {
    if Contains(t, "  ") {
      ContainsAt(t, "  ");
      var i :| OccursAt(t, "  ", i);
      TwoSpacesAt(t, i);
    }
  }

  /** Lower-casing the column with its spaces turned to '_' gives the field back. */
  lemma LowerMappedField(t: string, f: string)
    requires |t| == |f| && forall i :: 0 <= i < |f| ==> (t[i] == ' ' <==> f[i] == '_')
    requires forall i :: 0 <= i < |f| && f[i] != '_' ==> LowerChar(t[i]) == f[i]
    ensures Lower(MapChar(t, ' ', '_')) == f
  {
    var r := Lower(MapChar(t, ' ', '_'));
    forall i | 0 <= i < |f|
      ensures r[i] == f[i]
    {
    }
  }

  /** The CSV header written by __save_csv is read back by __load_csv as the field names
      themselves: the two conversions are inverse on the project's field names. */
  lemma ColumnNameRoundTrip(f: string)
    requires IsFieldName(f)
    ensures ConvertColumnName(ConvertNamedtupleFieldsName(f)) == f
  {
    var t := ConvertNamedtupleFieldsName(f);
    TitledFieldChars(f);
    if f != [] {
      StripUntouched(t);
    }
    NoDoubleSpace(t, f);
    ReplaceAbsent(t, "  ", "_");
    ReplaceCharIsMap(t, ' ', '_');
    LowerMappedField(t, f);
  }

  /** The converted name holds no space and no upper-case letter. */
  lemma ColumnNameShape(name: string)
    ensures ' ' !in ConvertColumnName(name)
    ensures forall i :: 0 <= i < |ConvertColumnName(name)| ==> !IsUpperChar(ConvertColumnName(name)[i])
  {
    var s := ReplaceAll(Strip(name), "  ", "_");
    ReplaceCharIsMap(s, ' ', '_');
    var u := MapChar(s, ' ', '_');
    assert ' ' !in u;
    assert forall i :: 0 <= i < |u| ==> LowerChar(u[i]) != ' ';
  }

  // ---------------------------------------------------------------------------
  // Values and file kinds
  // ---------------------------------------------------------------------------

  /** The members of the FileWorker enumeration. */
  datatype Kind = ListData | ListDataInt | ListDataStr | CsvData
                | DictData | DictDataIntInt | DictDataStrStr | DictDataStrInt | DictDataIntStr

  /** The scalar values the files hold. */
  datatype PyVal = Str(s: string) | Int(i: int)

  /** `str(v)`, as `format` and `str` write it. */
  function Show(v: PyVal): string {
    match v
    case Str(s) => s
    case Int(i) => ShowInt(i)
  }

  predicate Truthy(v: PyVal) {
    match v
    case Str(s) => s != []
    case Int(i) => i != 0
  }

  // ---------------------------------------------------------------------------
  // Dictionaries: one `[key] -> [value]` line per entry
  // ---------------------------------------------------------------------------

  /** The line __save_dict writes for one entry. */
  function DictLine(key: PyVal, value: PyVal): string {
    "[" + Show(key) + "] -> [" + Show(value) + "]\n"
  }

  /** The lines written for the entries of a dictionary, in its iteration order. */
  function DictLines(entries: seq<(PyVal, PyVal)>): (r: seq<string>)
    ensures |r| == |entries| && forall i :: 0 <= i < |entries| ==> r[i] == DictLine(entries[i].0, entries[i].1)
  {
    seq(|entries|, i requires 0 <= i < |entries| => DictLine(entries[i].0, entries[i].1))
  }

  /** Where the lazy `.+?` of `\[.+?]` ends when the match starts at line[0]: the first
      ']' from index k on, with no line break in between. */
  function CloseFrom(line: string, k: nat): (r: Option<nat>)
    requires k >= 2
    ensures r.Some? ==> k <= r.value < |line| && line[r.value] == ']'
    decreases |line| - k
  {
    if k >= |line| || line[k - 1] == '\n' then None
    else if line[k] == ']' then Some(k)
    else CloseFrom(line, k + 1)
  }

  /** `re.findall(r"\[.+?]", line)`: the bracket groups, left to right, not overlapping. */
  function BracketGroups(line: string): seq<string>
    decreases |line|
  {
    if line == [] then []
    else if line[0] == '[' && CloseFrom(line, 2).Some? then
      var k := CloseFrom(line, 2).value;
      [line[..k + 1]] + BracketGroups(line[k + 1..])
    else BracketGroups(line[1..])
  }

  /** `.replace('[', '').replace(']', '')`. */
  function StripBrackets(s: string): string {
    ReplaceAll(ReplaceAll(s, "[", ""), "]", "")
  }

  /** One line of __load_dict: the entry it adds, or None when the line is skipped
      (not exactly two bracket groups, or a field that must be an int is not all digits). */
  function ParseDictLine(line: string, kind: Kind): Option<(PyVal, PyVal)> {
    var res := BracketGroups(line);
    if |res| != 2 then None
    else
      var key := StripBrackets(res[0]);
      var value := StripBrackets(res[1]);
      if kind == DictDataIntInt then
        if !IsDigits(key) || !IsDigits(value) then None else Some((Int(ParseNat(key)), Int(ParseNat(value))))
      else if kind == DictDataStrInt then
        if !IsDigits(value) then None else Some((Str(key), Int(ParseNat(value))))
      else if kind == DictDataIntStr then
        if !IsDigits(key) then None else Some((Int(ParseNat(key)), Str(value)))
      else Some((Str(key), Str(value)))
  }

  /** The dictionary read from the lines: each accepted line sets its key, later lines win. */
  function LoadDictSpec(lines: seq<string>, kind: Kind): map<PyVal, PyVal> {
    if lines == [] then map[]
    else
      var data := LoadDictSpec(lines[..|lines| - 1], kind);
      match ParseDictLine(lines[|lines| - 1], kind)
      case None => data
      case Some(entry) => data[entry.0 := entry.1]
  }

  /** __load_dict over the lines of the file, or over nothing when the file cannot be
      opened (the exception is caught and the empty dictionary returned). */
  method LoadDict(file: Option<seq<string>>, kind: Kind) returns (data: map<PyVal, PyVal>)
    ensures data == if file.None? then map[] else LoadDictSpec(file.value, kind)
  {
    data := map[];
    if file.None? {
      return;
    }
    var lines := file.value;
    var n := 0;
    while n < |lines|
      invariant 0 <= n <= |lines|
      invariant data == LoadDictSpec(lines[..n], kind)
    {
      var entry := ParseDictLine(lines[n], kind);
      assert lines[..n + 1][..n] == lines[..n];
      if entry.Some? {
        data := data[entry.value.0 := entry.value.1];
      }
      n := n + 1;
    }
    assert lines[..n] == lines;
  }

  /** A dictionary key or value that survives the line format: non-empty, without
      brackets and without a line break. */
  predicate Clean(s: string) {
    s != [] && '[' !in s && ']' !in s && '\n' !in s
  }

  lemma {:induction false} CloseAfter(x: string, rest: string, k: nat)
    requires x != [] && ']' !in x && '\n' !in x && 2 <= k <= |x| + 1
    ensures CloseFrom("[" + x + "]" + rest, k) == Some(|x| + 1)
    decreases |x| + 1 - k
  {
    var line := "[" + x + "]" + rest;
    assert line[k - 1] == x[k - 2];
    if k < |x| + 1 {
      assert line[k] == x[k - 1];
      CloseAfter(x, rest, k + 1);
    }
  }

  /** A clean bracket group at the start of a line is found first. */
  lemma GroupFirst(x: string, rest: string)
    requires Clean(x)
    ensures BracketGroups("[" + x + "]" + rest) == ["[" + x + "]"] + BracketGroups(rest)
  {
    var line := "[" + x + "]" + rest;
    CloseAfter(x, rest, 2);
    assert line[..|x| + 2] == "[" + x + "]";
    assert line[|x| + 2..] == rest;
  }

  /** Text without '[' holds no group. */
  lemma {:induction false} SkipPlain(p: string, rest: string)
    requires '[' !in p
    ensures BracketGroups(p + rest) == BracketGroups(rest)
    decreases |p|
  {
    if p != [] {
      assert (p + rest)[0] == p[0];
      assert (p + rest)[1..] == p[1..] + rest;
      SkipPlain(p[1..], rest);
    } else {
      assert p + rest == rest;
    }
  }

  /** A dictionary line of clean texts holds exactly its two groups. */
  lemma DictLineGroups(k: string, v: string)
    requires Clean(k) && Clean(v)
    ensures BracketGroups("[" + k + "] -> [" + v + "]\n") == ["[" + k + "]", "[" + v + "]"]
  {
    var line := "[" + k + "] -> [" + v + "]\n";
    assert line == "[" + k + "]" + (" -> " + ("[" + v + "]" + "\n"));
    GroupFirst(k, " -> " + ("[" + v + "]" + "\n"));
    SkipPlain(" -> ", "[" + v + "]" + "\n");
    GroupFirst(v, "\n");
    SkipPlain("\n", []);
  }

  /** Removing the brackets of a clean group gives its text back. */
  lemma StripGroup(x: string)
    requires Clean(x)
    ensures StripBrackets("[" + x + "]") == x
  {
    assert "[" + x + "]" == "[" + (x + "]");
    ReplaceCharConcat("[", x + "]", '[', "");
    ReplaceCharConcat(x, "]", '[', "");
    AbsentCharNotContained(x, '[');
    ReplaceAbsent(x, "[", "");
    assert ReplaceAll("[", "[", "") == "";
    assert ReplaceAll("]", "[", "") == "]";
    assert ReplaceAll("[" + x + "]", "[", "") == x + "]";
    ReplaceCharConcat(x, "]", ']', "");
    AbsentCharNotContained(x, ']');
    assert ReplaceAll("]", "]", "") == "";
    ReplaceAbsent(x, "]", "");
  }

  /** `str(n)` of a non-negative int is a clean run of digits that `int` reads back. */
  lemma ShownNatClean(n: nat)
    ensures Clean(ShowNat(n)) && IsDigits(ShowNat(n)) && ParseNat(ShowNat(n)) == n
  {
    ParseShowNat(n);
    var s := ShowNat(n);
    assert forall c :: c in s ==> IsDigitChar(c);
  }

  /** An entry the given kind of dictionary file keeps intact: the int fields are
      non-negative, the text fields clean. */
  predicate DictFits(key: PyVal, value: PyVal, kind: Kind) {
    if kind == DictDataIntInt then key.Int? && key.i >= 0 && value.Int? && value.i >= 0
    else if kind == DictDataStrInt then key.Str? && Clean(key.s) && value.Int? && value.i >= 0
    else if kind == DictDataIntStr then key.Int? && key.i >= 0 && value.Str? && Clean(value.s)
    else key.Str? && Clean(key.s) && value.Str? && Clean(value.s)
  }

  lemma ShownFits(v: PyVal)
    requires (v.Int? && v.i >= 0) || (v.Str? && Clean(v.s))
    ensures Clean(Show(v)) && StripBrackets("[" + Show(v) + "]") == Show(v)
    ensures v.Int? ==> IsDigits(Show(v)) && ParseNat(Show(v)) == v.i
  {
    if v.Int? {
      ShownNatClean(v.i);
    }
    StripGroup(Show(v));
  }

  /** The line written for a fitting entry is read back as that entry. */
  lemma DictLineRoundTrip(key: PyVal, value: PyVal, kind: Kind)
    requires DictFits(key, value, kind)
    ensures ParseDictLine(DictLine(key, value), kind) == Some((key, value))
  {
    ShownFits(key);
    ShownFits(value);
    DictLineGroups(Show(key), Show(value));
  }

  /** A dictionary built from entries in order, later entries winning. */
  function ToMap(entries: seq<(PyVal, PyVal)>): map<PyVal, PyVal> {
    if entries == [] then map[]
    else ToMap(entries[..|entries| - 1])[entries[|entries| - 1].0 := entries[|entries| - 1].1]
  }

  /** Saving a dictionary and loading the file back gives the dictionary again, for
      entries that fit the kind loaded. The counters of the bot are written through
      `dict_data` and read through `dict_data_str_int`: the text written is the same for
      every dictionary kind. */
  lemma DictRoundTrip(entries: seq<(PyVal, PyVal)>, kind: Kind)
    requires forall i :: 0 <= i < |entries| ==> DictFits(entries[i].0, entries[i].1, kind)
    ensures LoadDictSpec(DictLines(entries), kind) == ToMap(entries)
  {
    var lines := DictLines(entries);
    forall i | 0 <= i < |entries|
      ensures ParseDictLine(lines[i], kind) == Some(entries[i])
    {
      DictLineRoundTrip(entries[i].0, entries[i].1, kind);
    }
    LoadDictOf(lines, entries, kind);
  }

  /** Lines that each parse to an entry load as the dictionary of those entries. */
  lemma {:induction false} LoadDictOf(lines: seq<string>, entries: seq<(PyVal, PyVal)>, kind: Kind)
    requires |lines| == |entries| && forall i :: 0 <= i < |lines| ==> ParseDictLine(lines[i], kind) == Some(entries[i])
    ensures LoadDictSpec(lines, kind) == ToMap(entries)
  {
    if lines != [] {
      var n := |lines|;
      LoadDictOf(lines[..n - 1], entries[..n - 1], kind);
    }
  }

  /** A negative count does not survive: its line is skipped on loading. */
  lemma NegativeCountSkipped(key: string, n: int)
    requires Clean(key) && n < 0
    ensures ParseDictLine(DictLine(Str(key), Int(n)), DictDataStrInt) == None
  {
    var v := ShowInt(n);
    ShownNatClean(-n);
    assert v == "-" + ShowNat(-n);
    assert Clean(v);
    StripGroup(key);
    StripGroup(v);
    DictLineGroups(key, v);
    assert !IsDigitChar(v[0]);
  }

  // ---------------------------------------------------------------------------
  // Lists: one item per line
  // ---------------------------------------------------------------------------

  /** The data handed to `save`: a dictionary (its items in order), a list, a single
      str or int, or a list of namedtuple records (each the list of its field texts). */
  datatype Data = DictOf(entries: seq<(PyVal, PyVal)>) | ListOf(items: seq<PyVal>) | Scalar(v: PyVal)
                | Records(rows: seq<seq<string>>)

  /** `not data` is false. */
  predicate DataTruthy(data: Data) {
    match data
    case DictOf(entries) => entries != []
    case ListOf(items) => items != []
    case Scalar(v) => Truthy(v)
    case Records(rows) => rows != []
  }

  /** The lines __save_list writes: one for a str or int, one per item of a list, none
      for anything else. */
  function ListLines(data: Data): (r: seq<string>)
    requires !data.Records?
    ensures data.Scalar? ==> r == [Show(data.v) + "\n"]
    ensures data.ListOf? ==> |r| == |data.items| && forall i :: 0 <= i < |r| ==> r[i] == Show(data.items[i]) + "\n"
    ensures data.DictOf? ==> r == []
  {
    match data
    case Scalar(v) => [Show(v) + "\n"]
    case ListOf(items) => seq(|items|, i requires 0 <= i < |items| => Show(items[i]) + "\n")
    case DictOf(_) => []
  }

  /** `line.replace('\n', '').replace('\r', '')`. */
  function CleanLine(line: string): string {
    ReplaceAll(ReplaceAll(line, "\n", ""), "\r", "")
  }

  /** One line of __load_list: skipped when empty; for `list_data_int` the digit runs
      joined and read as an int, skipped when there are none; otherwise the text. */
  function ParseListLine(line: string, kind: Kind): Option<PyVal> {
    var text := CleanLine(line);
    if text == [] then None
    else if kind == ListDataInt then
      var digits := DigitsOf(text);
      if digits == [] then None else Some(Int(ParseNat(digits)))
    else Some(Str(text))
  }

  function LoadListSpec(lines: seq<string>, kind: Kind): seq<PyVal> {
    if lines == [] then []
    else
      var data := LoadListSpec(lines[..|lines| - 1], kind);
      match ParseListLine(lines[|lines| - 1], kind)
      case None => data
      case Some(item) => data + [item]
  }

  /** __load_list over the lines of the file, or the empty list when the file cannot be
      opened. */
  method LoadList(file: Option<seq<string>>, kind: Kind) returns (data: seq<PyVal>)
    ensures data == if file.None? then [] else LoadListSpec(file.value, kind)
  {
    data := [];
    if file.None? {
      return;
    }
    var lines := file.value;
    var n := 0;
    while n < |lines|
      invariant 0 <= n <= |lines|
      invariant data == LoadListSpec(lines[..n], kind)
    {
      var item := ParseListLine(lines[n], kind);
      assert lines[..n + 1][..n] == lines[..n];
      if item.Some? {
        data := data + [item.value];
      }
      n := n + 1;
    }
    assert lines[..n] == lines;
  }

  /** An item a list file keeps intact when loaded as `kind`: a non-negative int for
      `list_data_int`, a non-empty text without line breaks otherwise. */
  predicate ListFits(v: PyVal, kind: Kind) {
    if kind == ListDataInt then v.Int? && v.i >= 0
    else v.Str? && v.s != [] && '\n' !in v.s && '\r' !in v.s
  }

  /** Dropping the line break of a line without other breaks gives its text. */
  lemma CleanWrittenLine(s: string)
    requires '\n' !in s && '\r' !in s
    ensures CleanLine(s + "\n") == s
  {
    ReplaceCharConcat(s, "\n", '\n', "");
    AbsentCharNotContained(s, '\n');
    ReplaceAbsent(s, "\n", "");
    assert ReplaceAll("\n", "\n", "") == "";
    assert ReplaceAll(s + "\n", "\n", "") == s;
    AbsentCharNotContained(s, '\r');
    ReplaceAbsent(s, "\r", "");
  }

  lemma ListLineRoundTrip(v: PyVal, kind: Kind)
    requires ListFits(v, kind)
    ensures ParseListLine(Show(v) + "\n", kind) == Some(v)
  {
    if v.Int? {
      ShownNatClean(v.i);
      var s := ShowNat(v.i);
      assert '\n' !in s && '\r' !in s by {
        assert forall c :: c in s ==> IsDigitChar(c);
      }
      CleanWrittenLine(s);
      DigitsOfDigits(s);
    } else {
      CleanWrittenLine(v.s);
    }
  }

  /** Lines that each parse to an item load as those items. */
  lemma {:induction false} LoadListOf(lines: seq<string>, items: seq<PyVal>, kind: Kind)
    requires |lines| == |items| && forall i :: 0 <= i < |lines| ==> ParseListLine(lines[i], kind) == Some(items[i])
    ensures LoadListSpec(lines, kind) == items
  {
    if lines != [] {
      var n := |lines|;
      LoadListOf(lines[..n - 1], items[..n - 1], kind);
    }
  }

  /** Saving a list and loading the file back gives the list again, for items that fit
      the kind loaded. The post counters are written through `list_data` and read
      through `list_data_int`. */
  lemma ListRoundTrip(items: seq<PyVal>, kind: Kind)
    requires forall i :: 0 <= i < |items| ==> ListFits(items[i], kind)
    ensures LoadListSpec(ListLines(ListOf(items)), kind) == items
  {
    var lines := ListLines(ListOf(items));
    forall i | 0 <= i < |items|
      ensures ParseListLine(lines[i], kind) == Some(items[i])
    {
      ListLineRoundTrip(items[i], kind);
    }
    LoadListOf(lines, items, kind);
  }

  /** A negative int written to a list file comes back without its sign. */
  lemma NegativeIntLosesSign(n: int)
    requires n < 0
    ensures ParseListLine(Show(Int(n)) + "\n", ListDataInt) == Some(Int(-n))
  {
    var s := ShowNat(-n);
    assert Show(Int(n)) == "-" + s;
    SignedLineParsed(s);
    ParseShowNat(-n);
  }

  /** A line holding "-" and digits is read as the digits' value. */
  lemma SignedLineParsed(s: string)
    requires IsDigits(s)
    ensures ParseListLine("-" + s + "\n", ListDataInt) == Some(Int(ParseNat(s)))
  {
    SignedLineClean(s);
    SignDropped(s);
  }

  /** The written text of a signed number has no line break to strip. */
  lemma SignedLineClean(s: string)
    requires IsDigits(s)
    ensures CleanLine("-" + s + "\n") == "-" + s
  {
    assert '\n' !in "-" + s && '\r' !in "-" + s by {
      assert forall c :: c in s ==> IsDigitChar(c);
    }
    CleanWrittenLine("-" + s);
  }

  /** Joining the digit runs of "-" followed by digits drops the sign. */
  lemma SignDropped(s: string)
    requires IsDigits(s)
    ensures DigitsOf("-" + s) == s
  {
    DigitsOfDigits(s);
    assert ("-" + s)[1..] == s;
  }

  // ---------------------------------------------------------------------------
  // CSV: a header of column names, then one record per namedtuple
  // ---------------------------------------------------------------------------

  /** The header __save_csv writes for the fields of a namedtuple type. */
  function CsvHeader(fields: seq<string>): (r: seq<string>)
    ensures |r| == |fields| && forall i :: 0 <= i < |fields| ==> r[i] == ConvertNamedtupleFieldsName(fields[i])
  {
    seq(|fields|, i requires 0 <= i < |fields| => ConvertNamedtupleFieldsName(fields[i]))
  }

  /** `columns_in_csv`: the header's names converted to field form. */
  function Columns(fieldnames: seq<string>): (r: seq<string>)
    ensures |r| == |fieldnames|
  {
    if fieldnames == [] then []
    else Columns(fieldnames[..|fieldnames| - 1]) + [ConvertColumnName(fieldnames[|fieldnames| - 1])]
  }

  lemma {:induction false} ColumnsAt(fieldnames: seq<string>, i: nat)
    requires i < |fieldnames|
    ensures Columns(fieldnames)[i] == ConvertColumnName(fieldnames[i])
  {
    if i < |fieldnames| - 1 {
      ColumnsAt(fieldnames[..|fieldnames| - 1], i);
    }
  }

  /** The first index (from k on) at which `names` holds `name`. */
  function FirstIndex(names: seq<string>, name: string, k: nat): (r: Option<nat>)
    requires k <= |names|
    ensures r.Some? ==> k <= r.value < |names| && names[r.value] == name
    ensures r.Some? ==> forall j :: k <= j < r.value ==> names[j] != name
    ensures r.None? ==> forall j :: k <= j < |names| ==> names[j] != name
    decreases |names| - k
  {
    if k == |names| then None
    else if names[k] == name then Some(k)
    else FirstIndex(names, name, k + 1)
  }

  /** `need_column_name`: the first column whose name converts to the field. */
  function FirstColumn(fieldnames: seq<string>, field: string): (r: Option<nat>)
    ensures r.Some? <==> field in Columns(fieldnames)
    ensures r.Some? ==> r.value < |fieldnames| && Columns(fieldnames)[r.value] == field
    ensures r.Some? ==> forall j :: 0 <= j < r.value ==> Columns(fieldnames)[j] != field
  {
    FirstIndex(Columns(fieldnames), field, 0)
  }

  /** The row as csv.DictReader hands it over: the header's names zipped with the
      record (a later duplicate name wins), names past the end of a short record
      mapped to None. */
  function RowDict(fieldnames: seq<string>, row: seq<string>): map<string, Option<string>> {
    if |fieldnames| <= |row| then Zipped(fieldnames, row, |fieldnames|)
    else RestNone(Zipped(fieldnames, row, |row|), fieldnames[|row|..])
  }

  function Zipped(fieldnames: seq<string>, row: seq<string>, n: nat): map<string, Option<string>>
    requires n <= |fieldnames| && n <= |row|
  {
    if n == 0 then map[] else Zipped(fieldnames, row, n - 1)[fieldnames[n - 1] := Some(row[n - 1])]
  }

  function RestNone(d: map<string, Option<string>>, names: seq<string>): map<string, Option<string>> {
    if names == [] then d else RestNone(d, names[..|names| - 1])[names[|names| - 1] := None]
  }

  lemma {:induction false} ZippedKeys(fieldnames: seq<string>, row: seq<string>, n: nat)
    requires n <= |fieldnames| && n <= |row|
    ensures forall j :: 0 <= j < n ==> fieldnames[j] in Zipped(fieldnames, row, n)
  {
    if n > 0 {
      ZippedKeys(fieldnames, row, n - 1);
    }
  }

  lemma {:induction false} RestNoneKeys(d: map<string, Option<string>>, names: seq<string>)
    ensures forall k :: k in d ==> k in RestNone(d, names)
    ensures forall j :: 0 <= j < |names| ==> names[j] in RestNone(d, names)
  {
    if names != [] {
      RestNoneKeys(d, names[..|names| - 1]);
    }
  }

  /** Every name of the header is a key of the row. */
  lemma RowDictKeys(fieldnames: seq<string>, row: seq<string>)
    ensures forall j :: 0 <= j < |fieldnames| ==> fieldnames[j] in RowDict(fieldnames, row)
  {
    if |fieldnames| <= |row| {
      ZippedKeys(fieldnames, row, |fieldnames|);
    } else {
      ZippedKeys(fieldnames, row, |row|);
      var rest := fieldnames[|row|..];
      RestNoneKeys(Zipped(fieldnames, row, |row|), rest);
      forall j | |row| <= j < |fieldnames|
        ensures fieldnames[j] in RowDict(fieldnames, row)
      {
        assert fieldnames[j] == rest[j - |row|];
      }
    }
  }

  /** Every field has a column. */
  predicate AllFound(fieldnames: seq<string>, fields: seq<string>) {
    forall f :: f in fields ==> FirstColumn(fieldnames, f).Some?
  }

  /** `row_dict[need_column_name]`: the value of the first column for the field (None
      for a field without a column, which __load_csv has ruled out beforehand). */
  function Cell(fieldnames: seq<string>, row: seq<string>, field: string): Option<string> {
    match FirstColumn(fieldnames, field)
    case None => None
    case Some(c) =>
      RowDictKeys(fieldnames, row);
      RowDict(fieldnames, row)[fieldnames[c]]
  }

  /** The value list built for one record, in field order. */
  function RecordOf(fieldnames: seq<string>, row: seq<string>, fields: seq<string>): (r: seq<Option<string>>)
    ensures |r| == |fields|
  {
    seq(|fields|, j requires 0 <= j < |fields| => Cell(fieldnames, row, fields[j]))
  }

  /** The records DictReader yields (it skips empty ones), each turned into its values. */
  function RecordsOf(fieldnames: seq<string>, rows: seq<seq<string>>, fields: seq<string>): seq<seq<Option<string>>>
  {
    if rows == [] then []
    else
      var done := RecordsOf(fieldnames, rows[..|rows| - 1], fields);
      var row := rows[|rows| - 1];
      if row == [] then done else done + [RecordOf(fieldnames, row, fields)]
  }

  /** __load_csv over the records of the file: None when a field has no column; an empty
      list for an empty file (iterating the missing header raises, and the exception is
      caught). */
  function LoadCsvSpec(records: seq<seq<string>>, fields: seq<string>): Option<seq<seq<Option<string>>>> {
    if records == [] then Some([])
    else if !AllFound(records[0], fields) then None
    else Some(RecordsOf(records[0], records[1..], fields))
  }

  method LoadCsv(file: Option<seq<seq<string>>>, fields: seq<string>) returns (result: Option<seq<seq<Option<string>>>>)
    ensures result == if file.None? then Some([]) else LoadCsvSpec(file.value, fields)
  {
    if file.None? || file.value == [] {
      return Some([]);
    }
    var fieldnames := file.value[0];
    var rows := file.value[1..];
    var found := HasAllColumns(fieldnames, fields);
    if !found {
      return None;
    }
    var records: seq<seq<Option<string>>> := [];
    var n := 0;
    while n < |rows|
      invariant 0 <= n <= |rows|
      invariant records == RecordsOf(fieldnames, rows[..n], fields)
    {
      TakeOneMore(rows, n);
      assert (rows[..n] + [rows[n]])[..n] == rows[..n];
      var row := rows[n];
      if row != [] {
        var values := RecordValues(fieldnames, row, fields);
        records := records + [values];
      }
      n := n + 1;
    }
    assert rows[..n] == rows;
    result := Some(records);
  }

  /** The first loop of __load_csv: every field is among the converted column names. */
  method HasAllColumns(fieldnames: seq<string>, fields: seq<string>) returns (found: bool)
    ensures found == AllFound(fieldnames, fields)
  {
    var columnsInCsv := Columns(fieldnames);
    var i := 0;
    while i < |fields|
      invariant 0 <= i <= |fields|
      invariant forall k :: 0 <= k < i ==> FirstColumn(fieldnames, fields[k]).Some?
    {
      if fields[i] !in columnsInCsv {
        assert fields[i] in fields;
        return false;
      }
      i := i + 1;
    }
    return true;
  }

  /** The inner loop of __load_csv: the value of each field's column, in field order. */
  method RecordValues(fieldnames: seq<string>, row: seq<string>, fields: seq<string>) returns (values: seq<Option<string>>)
    requires AllFound(fieldnames, fields)
    ensures values == RecordOf(fieldnames, row, fields)
  {
    RowDictKeys(fieldnames, row);
    var rowDict := RowDict(fieldnames, row);
    ghost var record := RecordOf(fieldnames, row, fields);
    values := [];
    var j := 0;
    while j < |fields|
      invariant 0 <= j <= |fields|
      invariant values == record[..j]
    {
      assert fields[j] in fields;
      var need := FirstColumn(fieldnames, fields[j]).value;
      var value := rowDict[fieldnames[need]];
      assert value == record[j];
      TakeOneMore(record, j);
      values := values + [value];
      j := j + 1;
    }
    assert record[..j] == record;
  }

  lemma TakeOneMore<T>(s: seq<T>, j: nat)
    requires j < |s|
    ensures s[..j + 1] == s[..j] + [s[j]]
  {
  }

  /** A header of distinct well-formed field names is read back column for column: each
      field finds the column written for it, and each record comes back as written. */
  lemma CsvRoundTrip(fields: seq<string>, rows: seq<seq<string>>)
    requires fields != [] && forall i :: 0 <= i < |fields| ==> IsFieldName(fields[i])
    requires forall i, j :: 0 <= i < j < |fields| ==> fields[i] != fields[j]
    requires forall k :: 0 <= k < |rows| ==> |rows[k]| == |fields|
    ensures LoadCsvSpec([CsvHeader(fields)] + rows, fields)
      == Some(seq(|rows|, k requires 0 <= k < |rows| => seq(|fields|, j requires 0 <= j < |fields| => Some(rows[k][j]))))
  {
    var header := CsvHeader(fields);
    HeaderColumns(fields);
    assert ([header] + rows)[1..] == rows;
    forall k | 0 <= k < |rows|
      ensures RecordOf(header, rows[k], fields) == seq(|fields|, j requires 0 <= j < |fields| => Some(rows[k][j]))
    {
      HeaderRecord(fields, rows[k]);
    }
    RecordsAsWritten(header, rows, fields);
  }

  /** Each field of the header finds its own column. */
  lemma HeaderColumns(fields: seq<string>)
    requires forall i :: 0 <= i < |fields| ==> IsFieldName(fields[i])
    requires forall i, j :: 0 <= i < j < |fields| ==> fields[i] != fields[j]
    ensures forall j :: 0 <= j < |fields| ==> FirstColumn(CsvHeader(fields), fields[j]) == Some(j)
    ensures AllFound(CsvHeader(fields), fields)
    ensures forall i, j :: 0 <= i < j < |fields| ==> CsvHeader(fields)[i] != CsvHeader(fields)[j]
  {
    var header := CsvHeader(fields);
    forall i | 0 <= i < |fields|
      ensures Columns(header)[i] == fields[i]
    {
      ColumnsAt(header, i);
      ColumnNameRoundTrip(fields[i]);
    }
    assert Columns(header) == fields;
    forall j | 0 <= j < |fields|
      ensures FirstColumn(header, fields[j]) == Some(j)
    {
      assert fields[j] in Columns(header);
    }
    forall i, j | 0 <= i < j < |fields|
      ensures header[i] != header[j]
    {
      ColumnsAt(header, i);
      ColumnsAt(header, j);
    }
  }

  /** With distinct names, the row dictionary maps each name to the value under it. */
  lemma {:induction false} ZippedAt(fieldnames: seq<string>, row: seq<string>, n: nat, j: nat)
    requires n <= |fieldnames| && n <= |row| && j < n
    requires forall a, b :: 0 <= a < b < |fieldnames| ==> fieldnames[a] != fieldnames[b]
    ensures fieldnames[j] in Zipped(fieldnames, row, n) && Zipped(fieldnames, row, n)[fieldnames[j]] == Some(row[j])
  {
    if j < n - 1 {
      ZippedAt(fieldnames, row, n - 1, j);
    }
  }

  lemma HeaderRecord(fields: seq<string>, row: seq<string>)
    requires forall i :: 0 <= i < |fields| ==> IsFieldName(fields[i])
    requires forall i, j :: 0 <= i < j < |fields| ==> fields[i] != fields[j]
    requires |row| == |fields|
    ensures AllFound(CsvHeader(fields), fields)
    ensures RecordOf(CsvHeader(fields), row, fields) == seq(|fields|, j requires 0 <= j < |fields| => Some(row[j]))
  {
    var header := CsvHeader(fields);
    HeaderColumns(fields);
    forall j | 0 <= j < |fields|
      ensures RecordOf(header, row, fields)[j] == Some(row[j])
    {
      ZippedAt(header, row, |header|, j);
    }
  }

  lemma {:induction false} RecordsAsWritten(header: seq<string>, rows: seq<seq<string>>, fields: seq<string>)
    requires fields != []
    requires forall k :: 0 <= k < |rows| ==> |rows[k]| == |fields|
    requires forall k :: 0 <= k < |rows| ==>
      RecordOf(header, rows[k], fields) == seq(|fields|, j requires 0 <= j < |fields| => Some(rows[k][j]))
    ensures RecordsOf(header, rows, fields)
      == seq(|rows|, k requires 0 <= k < |rows| => seq(|fields|, j requires 0 <= j < |fields| => Some(rows[k][j])))
  {
    if rows != [] {
      var n := |rows|;
      RecordsAsWritten(header, rows[..n - 1], fields);
      assert rows[n - 1] != [];
    }
  }

  // ---------------------------------------------------------------------------
  // save and load: the dispatch on the member of the enumeration
  // ---------------------------------------------------------------------------

  /** What a call to `save` does to the file: nothing, or lines / CSV records written
      over it (overwrite) or after it (append). */
  datatype Effect = Unchanged
                  | WriteLines(lines: seq<string>, overwrite: bool)
                  | WriteRecords(records: seq<seq<string>>, overwrite: bool)

  /** FileWorker.save. `namedtupleType` holds the fields of the namedtuple type when one
      is passed. */
  function Save(kind: Kind, data: Data, overwrite: bool, namedtupleType: Option<seq<string>>): Outcome<Effect>
    requires !(kind == ListData && data.Records?)
  {
    if !DataTruthy(data) then Ok(Unchanged)
    else if kind == DictData then
      if namedtupleType.Some? then Raised(AttributeError)
      else if !data.DictOf? then Raised(AttributeError)  // data.items() on a value that is not a dict
      else Ok(WriteLines(DictLines(data.entries), overwrite))
    else if kind == ListData then
      if namedtupleType.Some? then Raised(AttributeError)
      else Ok(WriteLines(ListLines(data), overwrite))
    else if kind == CsvData then
      if namedtupleType.None? then Raised(AttributeError)
      else if !data.Records? then Ok(Unchanged)
      else Ok(WriteRecords((if overwrite then [CsvHeader(namedtupleType.value)] else []) + data.rows, overwrite))
    else Ok(Unchanged)
  }

  /** The lines of a text file after the effect (a missing file reads as no lines). */
  function ApplyLines(effect: Effect, file: seq<string>): (r: seq<string>)
    ensures effect.WriteLines? && effect.overwrite ==> r == effect.lines
    ensures effect.WriteLines? && !effect.overwrite ==> r == file + effect.lines
    ensures !effect.WriteLines? ==> r == file
  {
    match effect
    case WriteLines(lines, overwrite) => if overwrite then lines else file + lines
    case _ => file
  }

  /** The records of a CSV file after the effect. */
  function ApplyRecords(effect: Effect, file: seq<seq<string>>): (r: seq<seq<string>>)
    ensures effect.WriteRecords? && effect.overwrite ==> r == effect.records
    ensures effect.WriteRecords? && !effect.overwrite ==> r == file + effect.records
    ensures !effect.WriteRecords? ==> r == file
  {
    match effect
    case WriteRecords(records, overwrite) => if overwrite then records else file + records
    case _ => file
  }

  /** `save` raises exactly for a truthy value given to dict_data with a namedtuple type
      or that is no dict, to list_data with a namedtuple type, or to csv_data without
      one; the exception is always AttributeError. */
  lemma SaveRaises(kind: Kind, data: Data, overwrite: bool, namedtupleType: Option<seq<string>>)
    requires !(kind == ListData && data.Records?)
    ensures Save(kind, data, overwrite, namedtupleType).Raised? <==>
      DataTruthy(data) &&
      ((kind == DictData && (namedtupleType.Some? || !data.DictOf?))
       || (kind == ListData && namedtupleType.Some?)
       || (kind == CsvData && namedtupleType.None?))
    ensures Save(kind, data, overwrite, namedtupleType).Raised? ==>
      Save(kind, data, overwrite, namedtupleType).error == AttributeError
  {
  }

  /** The typed members (list_data_int, dict_data_str_int, ...) are for reading only:
      saving with them leaves the file as it is. */
  lemma TypedKindsSaveNothing(kind: Kind, data: Data, overwrite: bool, namedtupleType: Option<seq<string>>)
    requires kind !in {DictData, ListData, CsvData}
    ensures Save(kind, data, overwrite, namedtupleType) == Ok(Unchanged)
  {
  }

  /** What `load` returns. */
  datatype Loaded = DictLoaded(dict: map<PyVal, PyVal>)
                  | ListLoaded(items: seq<PyVal>)
                  | CsvLoaded(records: Option<seq<seq<Option<string>>>>)

  predicate IsDictKind(kind: Kind) {
    kind in {DictData, DictDataStrStr, DictDataStrInt, DictDataIntStr, DictDataIntInt}
  }

  predicate IsListKind(kind: Kind) {
    kind in {ListData, ListDataInt, ListDataStr}
  }

  /** FileWorker.load over the text of the file (dict and list members) or its CSV
      records (csv_data); None for a missing file. */
  function LoadSpec(kind: Kind, namedtupleType: Option<seq<string>>, text: Option<seq<string>>,
                    csv: Option<seq<seq<string>>>): Outcome<Loaded>
  {
    if IsDictKind(kind) then
      if namedtupleType.Some? then Raised(AttributeError)
      else Ok(DictLoaded(if text.None? then map[] else LoadDictSpec(text.value, kind)))
    else if IsListKind(kind) then
      if namedtupleType.Some? then Raised(AttributeError)
      else Ok(ListLoaded(if text.None? then [] else LoadListSpec(text.value, kind)))
    else if namedtupleType.None? then Raised(AttributeError)
    else Ok(CsvLoaded(if csv.None? then Some([]) else LoadCsvSpec(csv.value, namedtupleType.value)))
  }

  method Load(kind: Kind, namedtupleType: Option<seq<string>>, text: Option<seq<string>>,
              csv: Option<seq<seq<string>>>) returns (result: Outcome<Loaded>)
    ensures result == LoadSpec(kind, namedtupleType, text, csv)
  {
    if IsDictKind(kind) {
      if namedtupleType.Some? {
        return Raised(AttributeError);
      }
      var dict := LoadDict(text, kind);
      return Ok(DictLoaded(dict));
    } else if IsListKind(kind) {
      if namedtupleType.Some? {
        return Raised(AttributeError);
      }
      var items := LoadList(text, kind);
      return Ok(ListLoaded(items));
    } else {
      if namedtupleType.None? {
        return Raised(AttributeError);
      }
      var records := LoadCsv(csv, namedtupleType.value);
      return Ok(CsvLoaded(records));
    }
  }

  /** `load` raises exactly when a namedtuple type is passed to a dict or list member, or
      none to csv_data. */
  lemma LoadRaises(kind: Kind, namedtupleType: Option<seq<string>>, text: Option<seq<string>>,
                   csv: Option<seq<seq<string>>>)
    ensures LoadSpec(kind, namedtupleType, text, csv).Raised? <==>
      (if kind == CsvData then namedtupleType.None? else namedtupleType.Some?)
  {
  }

  /** A dictionary saved with dict_data over any file is loaded back, through a typed
      member whose types its entries fit, as the same dictionary. */
  lemma SavedDictLoads(entries: seq<(PyVal, PyVal)>, kind: Kind, file: seq<string>)
    requires entries != [] && IsDictKind(kind)
    requires forall i :: 0 <= i < |entries| ==> DictFits(entries[i].0, entries[i].1, kind)
    ensures Save(DictData, DictOf(entries), true, None).Ok?
    ensures LoadSpec(kind, None, Some(ApplyLines(Save(DictData, DictOf(entries), true, None).value, file)), None)
      == Ok(DictLoaded(ToMap(entries)))
  {
    var effect := Save(DictData, DictOf(entries), true, None);
    assert effect == Ok(WriteLines(DictLines(entries), true));
    assert ApplyLines(effect.value, file) == DictLines(entries);
    DictRoundTrip(entries, kind);
  }

  /** A list saved with list_data over any file is loaded back, through a typed member
      its items fit, as the same list. */
  lemma SavedListLoads(items: seq<PyVal>, kind: Kind, file: seq<string>)
    requires items != [] && (kind == ListDataInt || kind == ListDataStr || kind == ListData)
    requires forall i :: 0 <= i < |items| ==> ListFits(items[i], kind)
    ensures Save(ListData, ListOf(items), true, None).Ok?
    ensures LoadSpec(kind, None, Some(ApplyLines(Save(ListData, ListOf(items), true, None).value, file)), None)
      == Ok(ListLoaded(items))
  {
    ListRoundTrip(items, kind);
  }

  /** A list of namedtuples saved with csv_data over any file is loaded back as the same
      field values, when the fields are distinct snake_case names. */
  lemma SavedRecordsLoad(fields: seq<string>, rows: seq<seq<string>>, file: seq<seq<string>>)
    requires rows != [] && fields != [] && forall i :: 0 <= i < |fields| ==> IsFieldName(fields[i])
    requires forall i, j :: 0 <= i < j < |fields| ==> fields[i] != fields[j]
    requires forall k :: 0 <= k < |rows| ==> |rows[k]| == |fields|
    ensures Save(CsvData, Records(rows), true, Some(fields)).Ok?
    ensures LoadSpec(CsvData, Some(fields), None,
                     Some(ApplyRecords(Save(CsvData, Records(rows), true, Some(fields)).value, file)))
      == Ok(CsvLoaded(Some(seq(|rows|, k requires 0 <= k < |rows| =>
                             seq(|fields|, j requires 0 <= j < |fields| => Some(rows[k][j]))))))
  {
    CsvRoundTrip(fields, rows);
  }

  // ---------------------------------------------------------------------------
  // The crash counter of the runner, kept in a list_data file
  // ---------------------------------------------------------------------------

  /** load_data: the counter is the single number of the file, 0 otherwise. */
  function LoadCountCrash(file: Option<seq<string>>): (r: int)
    ensures r >= 0
  {
    var items := if file.None? then [] else LoadListSpec(file.value, ListDataInt);
    if |items| == 1 && items[0].Int? && items[0].i >= 0 then items[0].i else 0
  }

  /** inc_count_crash, below the alarm threshold: the new count is saved. */
  function SaveCountCrash(count: nat, file: seq<string>): seq<string> {
    ApplyLines(Save(ListData, Scalar(Int(count)), true, None).value, file)
  }

  /** clear_count_crash as written: it saves the int 0, which `save` refuses as falsy. */
  function ClearCountCrash(file: seq<string>): seq<string> {
    ApplyLines(Save(ListData, Scalar(Int(0)), true, None).value, file)
  }

  /** clear_count_crash as intended: the reset is written, as the list [0]. */
  function ClearCountCrashFixed(file: seq<string>): seq<string> {
    ApplyLines(Save(ListData, ListOf([Int(0)]), true, None).value, file)
  }

  /** A positive count saved by inc_count_crash is what the next start loads. */
  lemma CountCrashRoundTrip(count: nat, file: seq<string>)
    requires count > 0
    ensures LoadCountCrash(Some(SaveCountCrash(count, file))) == count
  {
    ListRoundTrip([Int(count)], ListDataInt);
  }

  /** After a crash was counted, clear_count_crash leaves the file as it was, so the next
      start loads the old count instead of 0. */
  lemma ClearCountCrashKeepsCount(count: nat)
    requires count > 0
    ensures LoadCountCrash(Some(ClearCountCrash(SaveCountCrash(count, [])))) == count
  {
    CountCrashRoundTrip(count, []);
  }

  /** The corrected reset: whatever the file held, the next start loads 0. */
  lemma ClearCountCrashFixedResets(file: seq<string>)
    ensures LoadCountCrash(Some(ClearCountCrashFixed(file))) == 0
  {
    ListRoundTrip([Int(0)], ListDataInt);
  }
}
