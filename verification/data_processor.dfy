/**
 `data_processor.py`: choosing a loader by file extension, reducing a table
 to the three text fields of a prompt, and deriving the cache key from the
 first rows of the table.

 pandas (parsing, `describe`, `to_string`), UTF-8 encoding and MD5 are
 foreign code: they enter as the function-valued fields of `Pandas` and
 `Hashing`. What is modelled is what this file decides around them: which
 loader runs, how many rows reach each rendering, which statistics rows
 are kept, how the column names are joined and how the digest is spelled.
 */
module DataProcessor {
  import opened Base

  /** One row, each cell in its displayed form. */
  type Row = seq<string>

  /** A data frame: ordered column names and ordered rows. */
  datatype Table = Table(columns: seq<string>, rows: seq<Row>)

  /** What the upload handler hands to the loader: decoded text or raw bytes. */
  datatype FileData = Text(text: string) | Bytes(bytes: seq<byte>)

  /** An MD5 digest: sixteen bytes. */
  type Digest = d: seq<byte> | |d| == 16
    witness [0, 0, 0, 0, 0, 0, 0, 0, 0, 0, 0, 0, 0, 0, 0, 0]

  /** The pandas entry points the file calls. */
  datatype Pandas = Pandas(
    readCsv: FileData -> Result<Table>,             // pd.read_csv
    readExcel: FileData -> Result<Table>,           // pd.read_excel
    readJson: FileData -> Result<Table>,            // pd.read_json
    toText: Table -> string,                        // DataFrame.to_string(index=False)
    describe: Table -> Result<map<string, Row>>,    // DataFrame.describe(), rows by label
    statsText: seq<(string, Row)> -> string,        // to_string() of the selected rows
    keyError: seq<string> -> string)                // str(KeyError) for labels .loc lacks

  /** `str.encode()` (UTF-8) and `hashlib.md5(...).digest()`. */
  datatype Hashing = Hashing(encode: string -> seq<byte>, md5: seq<byte> -> Digest)

  /** Rows rendered into the prompt's data sample. */
  const SampleRows := 5
  /** Rows rendered into the cache key's hash input. */
  const KeyRows := 3

  /** The four extensions `load_data` has a loader for, matched exactly. */
  predicate Supported(ext: string)
  {
    ext == "csv" || ext == "xlsx" || ext == "xls" || ext == "json"
  }

  function UnsupportedMessage(ext: string): string
  {
    "Unsupported file format: " + ext
  }

  /**
   `load_data`: dispatch on the extension. Excel files of both kinds share
   one reader; anything else raises `ValueError` naming the extension.
   */
  function LoadData(data: FileData, ext: string, pd: Pandas): (r: Result<Table>)
    ensures !Supported(ext) ==> r == Err(UnsupportedMessage(ext))
    ensures ext == "csv" ==> r == pd.readCsv(data)
    ensures ext == "xlsx" || ext == "xls" ==> r == pd.readExcel(data)
    ensures ext == "json" ==> r == pd.readJson(data)
  {
    if ext == "csv" then pd.readCsv(data)
    else if ext == "xlsx" || ext == "xls" then pd.readExcel(data)
    else if ext == "json" then pd.readJson(data)
    else Err(UnsupportedMessage(ext))
  }

  /** Matching is case-sensitive: an upper-case extension has no loader. */
  lemma UpperCaseExtensionRejected(data: FileData, pd: Pandas)
    ensures LoadData(data, "CSV", pd) == Err("Unsupported file format: CSV")
    ensures LoadData(data, "Json", pd) == Err("Unsupported file format: Json")
  {
  }

  /** `df.head(n)`: the first `n` rows, or all of them when there are fewer. */
  function Head(t: Table, n: nat): (h: Table)
    ensures h.columns == t.columns
    ensures |h.rows| == if |t.rows| < n then |t.rows| else n
    ensures h.rows <= t.rows
  {
    Table(t.columns, if |t.rows| < n then t.rows else t.rows[..n])
  }

  // ---------------------------------------------------------------------
  // The column list

  /** `", ".join(names)`. */
  function Join(names: seq<string>): (r: string)
    ensures |names| == 1 ==> r == names[0]
    decreases |names|
  {
    if |names| == 0 then ""
    else if |names| == 1 then names[0]
    else names[0] + ", " + Join(names[1..])
  }

  /** The name does not contain the separator `", "`. */
  predicate NoSeparator(s: string)
  {
    forall i :: 0 <= i < |s| - 1 ==> !(s[i] == ',' && s[i + 1] == ' ')
  }

  /** Splits at every `", "`, left to right: the reader's view of the column list. */
  function Split(s: string): (parts: seq<string>)
    ensures |parts| >= 1
    decreases |s|
  {
    if |s| < 2 then [s]
    else if s[0] == ',' && s[1] == ' ' then [""] + Split(s[2..])
    else
      var rest := Split(s[1..]);
      [[s[0]] + rest[0]] + rest[1..]
  }

  lemma {:induction false} SplitWithoutSeparator(x: string)
    requires NoSeparator(x)
    ensures Split(x) == [x]
    decreases |x|
  {
    if |x| >= 2 {
      assert !(x[0] == ',' && x[1] == ' ');
      assert NoSeparator(x[1..]) by {
        forall i | 0 <= i < |x[1..]| - 1
          ensures !(x[1..][i] == ',' && x[1..][i + 1] == ' ')
        {
          assert x[1..][i] == x[i + 1] && x[1..][i + 1] == x[i + 2];
        }
      }
      SplitWithoutSeparator(x[1..]);
      assert [x[0]] + x[1..] == x;
    }
  }

  lemma {:induction false} SplitAfterName(x: string, rest: string)
    requires NoSeparator(x)
    ensures Split(x + ", " + rest) == [x] + Split(rest)
    decreases |x|
  {
    var s := x + ", " + rest;
    if |x| == 0 {
      assert s[2..] == rest;
    } else {
      if |x| >= 2 {
        assert s[0] == x[0] && s[1] == x[1];
      } else {
        assert s[1] == ',';
      }
      assert !(s[0] == ',' && s[1] == ' ');
      assert NoSeparator(x[1..]) by {
        forall i | 0 <= i < |x[1..]| - 1
          ensures !(x[1..][i] == ',' && x[1..][i + 1] == ' ')
        {
          assert x[1..][i] == x[i + 1] && x[1..][i + 1] == x[i + 2];
        }
      }
      assert s[1..] == x[1..] + ", " + rest;
      SplitAfterName(x[1..], rest);
      assert [x[0]] + x[1..] == x;
    }
  }

  /**
   The joined column list can be read back into the column names, provided
   there is at least one and none contains the separator itself.
   */
  lemma {:induction false} SplitJoin(names: seq<string>)
    requires |names| >= 1
    requires forall i :: 0 <= i < |names| ==> NoSeparator(names[i])
    ensures Split(Join(names)) == names
    decreases |names|
  {
    if |names| == 1 {
      SplitWithoutSeparator(names[0]);
    } else {
      SplitJoin(names[1..]);
      SplitAfterName(names[0], Join(names[1..]));
      assert [names[0]] + names[1..] == names;
    }
  }

  // ---------------------------------------------------------------------
  // The dataset summary

  /** The three prompt fields of `get_dataset_info`, and nothing else. */
  datatype DatasetInfo = DatasetInfo(columns: string, statsSummary: string, dataSample: string)

  /** The `describe()` rows the summary keeps, in this order. */
  const StatLabels: seq<string> := ["count", "mean", "std"]

  /** The kept labels that `describe()` did not produce, in order. */
  function MissingLabels(stats: map<string, Row>): (m: seq<string>)
    ensures |m| == 0 <==> "count" in stats && "mean" in stats && "std" in stats
  {
    (if "count" in stats then [] else ["count"])
    + (if "mean" in stats then [] else ["mean"])
    + (if "std" in stats then [] else ["std"])
  }

  /** `.loc[['count', 'mean', 'std']]`: those three rows in order, or `KeyError`. */
  function SelectStats(stats: map<string, Row>, pd: Pandas): (r: Result<seq<(string, Row)>>)
    ensures r.Ok? <==> "count" in stats && "mean" in stats && "std" in stats
    ensures r.Ok? ==> |r.value| == |StatLabels|
    ensures r.Ok? ==> forall i :: 0 <= i < |StatLabels| ==> r.value[i] == (StatLabels[i], stats[StatLabels[i]])
    ensures r.Err? ==> r.message == pd.keyError(MissingLabels(stats))
  {
    if "count" in stats && "mean" in stats && "std" in stats then
      Ok([("count", stats["count"]), ("mean", stats["mean"]), ("std", stats["std"])])
    else
      Err(pd.keyError(MissingLabels(stats)))
  }

  /**
   `get_dataset_info`: the joined column names, the count/mean/std rows of
   `describe()`, and the first five rows rendered without the index.
   It fails as pandas does: when `describe()` raises (a table without
   columns), or when `describe()` lacks one of the kept rows (a table with
   no numeric column describes itself by count/unique/top/freq).
   */
  function GetDatasetInfo(t: Table, pd: Pandas): (r: Result<DatasetInfo>)
    ensures pd.describe(t).Err? ==> r == Err(pd.describe(t).message)
    ensures pd.describe(t).Ok? ==> (r.Ok? <==> SelectStats(pd.describe(t).value, pd).Ok?)
    ensures r.Ok? ==> r.value.columns == Join(t.columns)
    ensures r.Ok? ==> r.value.statsSummary == pd.statsText(SelectStats(pd.describe(t).value, pd).value)
    ensures r.Ok? ==> r.value.dataSample == pd.toText(Head(t, SampleRows))
  {
    match pd.describe(t)
    case Err(m) => Err(m)
    case Ok(stats) =>
      match SelectStats(stats, pd)
      case Err(m) => Err(m)
      case Ok(kept) => Ok(DatasetInfo(Join(t.columns), pd.statsText(kept), pd.toText(Head(t, SampleRows))))
  }

  /**
   The summary's parts: the column list reads back as the column names, the
   sample shows at most five rows, and the statistics are exactly the
   count, mean and std rows.
   */
  lemma SummaryShape(t: Table, pd: Pandas)
    requires GetDatasetInfo(t, pd).Ok?
    requires |t.columns| >= 1 && forall i :: 0 <= i < |t.columns| ==> NoSeparator(t.columns[i])
    ensures Split(GetDatasetInfo(t, pd).value.columns) == t.columns
    ensures GetDatasetInfo(t, pd).value.dataSample == pd.toText(Head(t, SampleRows))
    ensures |Head(t, SampleRows).rows| <= 5
    ensures GetDatasetInfo(t, pd).value.statsSummary
         == pd.statsText([("count", pd.describe(t).value["count"]),
                          ("mean", pd.describe(t).value["mean"]),
                          ("std", pd.describe(t).value["std"])])
  {
    SplitJoin(t.columns);
  }

  // ---------------------------------------------------------------------
  // The cache key

  predicate IsHexDigit(c: char)
  {
    '0' <= c <= '9' || 'a' <= c <= 'f'
  }

  predicate IsLowerHex(s: string)
  {
    forall i :: 0 <= i < |s| ==> IsHexDigit(s[i])
  }

  function HexChar(v: int): (c: char)
    requires 0 <= v < 16
    ensures IsHexDigit(c)
  {
    if v < 10 then ('0' as int + v) as char else ('a' as int + v - 10) as char
  }

  function DigitValue(c: char): (v: int)
    requires IsHexDigit(c)
    ensures 0 <= v < 16
    ensures HexChar(v) == c
  {
    if c <= '9' then c as int - '0' as int else c as int - 'a' as int + 10
  }

  /** One byte as two lower-case hexadecimal digits, high digit first. */
  function HexPair(b: byte): (p: string)
    ensures |p| == 2 && IsLowerHex(p)
    ensures DigitValue(p[0]) * 16 + DigitValue(p[1]) == b
  {
    [HexChar(b / 16), HexChar(b % 16)]
  }

  /** `hexdigest()`: every byte as two lower-case hexadecimal digits. */
  function HexDigest(d: seq<byte>): (h: string)
    ensures |h| == 2 * |d|
    ensures IsLowerHex(h)
    decreases |d|
  {
    if |d| == 0 then "" else HexPair(d[0]) + HexDigest(d[1..])
  }

  /** Reads a lower-case hexadecimal string back into bytes. */
  function ParseHex(h: string): (d: seq<byte>)
    requires |h| % 2 == 0 && IsLowerHex(h)
    ensures |d| == |h| / 2
    decreases |h|
  {
    if |h| == 0 then []
    else [DigitValue(h[0]) * 16 + DigitValue(h[1])] + ParseHex(h[2..])
  }

  /** The hexadecimal spelling loses nothing. */
  lemma {:induction false} ParseHexDigest(d: seq<byte>)
    ensures ParseHex(HexDigest(d)) == d
    decreases |d|
  {
    if |d| > 0 {
      var h := HexDigest(d);
      assert h[..2] == HexPair(d[0]);
      assert h[2..] == HexDigest(d[1..]);
      ParseHexDigest(d[1..]);
      assert [d[0]] + d[1..] == d;
    }
  }

  /** Every even-length lower-case hexadecimal string is some digest's spelling. */
  lemma {:induction false} HexDigestParse(h: string)
    requires |h| % 2 == 0 && IsLowerHex(h)
    ensures HexDigest(ParseHex(h)) == h
    decreases |h|
  {
    if |h| > 0 {
      var b: byte := DigitValue(h[0]) * 16 + DigitValue(h[1]);
      assert b / 16 == DigitValue(h[0]) && b % 16 == DigitValue(h[1]);
      assert HexPair(b) == h[..2];
      var d := ParseHex(h);
      assert d[0] == b && d[1..] == ParseHex(h[2..]);
      HexDigestParse(h[2..]);
      assert h[..2] + h[2..] == h;
    }
  }

  /**
   `generate_cache_key`: the MD5 hex digest of the UTF-8 text of the first
   three rows, rendered without the index.
   */
  function GenerateCacheKey(t: Table, pd: Pandas, hs: Hashing): (key: string)
    ensures |key| == 32 && IsLowerHex(key)
    ensures ParseHex(key) == hs.md5(hs.encode(pd.toText(Head(t, KeyRows))))
  {
    var digest := hs.md5(hs.encode(pd.toText(Head(t, KeyRows))));
    ParseHexDigest(digest);
    HexDigest(digest)
  }

  /**
   Loader independence: tables whose first three rows render to the same
   text get the same key, whichever file format they came from.
   */
  lemma SameHeadTextSameKey(t1: Table, t2: Table, pd: Pandas, hs: Hashing)
    requires pd.toText(Head(t1, KeyRows)) == pd.toText(Head(t2, KeyRows))
    ensures GenerateCacheKey(t1, pd, hs) == GenerateCacheKey(t2, pd, hs)
  {
  }

  /**
   Rows after the third never reach the key: appending rows to a table of
   three or more leaves its key unchanged. Distinct datasets that share
   their leading rows therefore share their cached insights.
   */
  lemma LaterRowsIgnored(t: Table, extra: seq<Row>, pd: Pandas, hs: Hashing)
    requires |t.rows| >= KeyRows
    ensures GenerateCacheKey(Table(t.columns, t.rows + extra), pd, hs) == GenerateCacheKey(t, pd, hs)
  {
    assert (t.rows + extra)[..KeyRows] == t.rows[..KeyRows];
    assert Head(Table(t.columns, t.rows + extra), KeyRows) == Head(t, KeyRows);
  }

  /** Equal keys mean equal digests: the hex spelling adds no collisions. */
  lemma EqualKeysEqualDigests(t1: Table, t2: Table, pd: Pandas, hs: Hashing)
    requires GenerateCacheKey(t1, pd, hs) == GenerateCacheKey(t2, pd, hs)
    ensures hs.md5(hs.encode(pd.toText(Head(t1, KeyRows)))) == hs.md5(hs.encode(pd.toText(Head(t2, KeyRows))))
  {
  }
}
