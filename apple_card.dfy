/** The Apple Card CSV strategy (server/utils/import-strategies/apple-card.ts):
    a file is recognised by its header line, and each CSV row becomes one
    normalised record. Tokenising the CSV and parsing a decimal number are
    parameters. */
module AppleCard {
  import opened Wrappers
  import opened Text
  import opened Schema
  import opened ImportTypes
  import opened Http

  const Name := "apple_card"

  /** The column titles of an Apple Card export. */
  const Headers: seq<string> := [
    "Transaction Date", "Clearing Date", "Description", "Merchant",
    "Category", "Type", "Amount (USD)", "Purchased By"]

  /** One CSV row, keyed by the header titles (values trimmed by the
      tokeniser). */
  datatype Row = Row(
    transactionDate: string, clearingDate: string, description: string,
    merchant: string, category: string, txType: string, amount: string,
    purchasedBy: string)

  /** The CSV tokeniser (columns taken from the header, empty lines skipped,
      values trimmed) and `parseFloat`. A tokeniser failure carries its
      message. */
  datatype Parsers = Parsers(
    csv: string -> Result<seq<Row>, string>,
    parseFloat: string -> Amount)

  /** Every title occurs somewhere in the line. */
  function AllOccur(titles: seq<string>, line: string): (b: bool)
    ensures b <==> forall k :: 0 <= k < |titles| ==> Contains(line, titles[k])
  {
    if titles == [] then true
    else Contains(line, titles[0]) && AllOccur(titles[1..], line)
  }

  /** `canHandle`: every header title occurs in the first line; the file
      name plays no part. */
  function CanHandle(filename: string, content: string): (b: bool)
    ensures b <==> forall k :: 0 <= k < |Headers| ==> Contains(FirstLine(content), Headers[k])
  {
    AllOccur(Headers, FirstLine(content))
  }

  /** One row as a normalised record. */
  function ToRecord(row: Row, parseFloat: string -> Amount): (r: NormalizedTransaction)
    ensures r.transactionDate == row.transactionDate
    ensures r.description == row.description
    ensures r.txType == row.txType
    ensures r.clearingDate.None? <==> row.clearingDate == []
    ensures r.clearingDate.Some? ==> r.clearingDate.value == row.clearingDate
    ensures r.purchasedBy.None? <==> row.purchasedBy == []
    ensures r.purchasedBy.Some? ==> r.purchasedBy.value == row.purchasedBy
    ensures r.sourceCategory.None? <==> row.category == []
    ensures r.sourceCategory.Some? ==> r.sourceCategory.value == row.category
    ensures row.merchant != [] ==> r.merchantName == row.merchant
    ensures row.merchant == [] ==> r.merchantName == row.description
    ensures r.amount == parseFloat(RemoveChar(row.amount, ','))
  {
    var digits := RemoveChar(row.amount, ',');
    NormalizedTransaction(
      row.transactionDate, NonEmptyOrNull(row.clearingDate), row.description,
      OrElse(row.merchant, row.description), parseFloat(digits), row.txType,
      NonEmptyOrNull(row.purchasedBy), NonEmptyOrNull(row.category))
  }

  /** A thousands separator is dropped in place: an amount written
      `a,b` (such as "1,250.00") is read as `ab` ("1250.00"), not as some
      other arrangement of its characters. */
  lemma ThousandsSeparatorDropped(row: Row, parseFloat: string -> Amount, a: string, b: string)
    requires ',' !in a && ',' !in b
    requires row.amount == a + [','] + b
    ensures ToRecord(row, parseFloat).amount == parseFloat(a + b)
  {
    RemoveCharBetween(a, b, ',');
  }

  /** `parse`: one record per data row, in row order. */
  function Parse(content: string, parsers: Parsers): (r: Result<seq<NormalizedTransaction>, string>)
    ensures parsers.csv(content).Err? ==> r == Err(parsers.csv(content).error)
    ensures parsers.csv(content).Ok? ==>
              r.Ok? && |r.value| == |parsers.csv(content).value| &&
              forall i :: 0 <= i < |r.value| ==> r.value[i] == ToRecord(parsers.csv(content).value[i], parsers.parseFloat)
  {
    match parsers.csv(content)
    case Err(e) => Err(e)
    case Ok(rows) => Ok(seq(|rows|, i requires 0 <= i < |rows| => ToRecord(rows[i], parsers.parseFloat)))
  }

  /** A header line with the titles in export order is recognised, whatever
      follows it. */
  lemma CanHandleExportHeader(filename: string, rest: string)
    ensures CanHandle(filename, Join(Headers, ',') + "\n" + rest)
  {
    assert forall k :: 0 <= k < |Headers| ==> '\n' !in Headers[k];
    HeaderLineHasTitles(Headers, rest);
  }

  /** The first line of a file that starts with the titles joined by commas
      contains every title, when no title holds a line break. */
  lemma HeaderLineHasTitles(titles: seq<string>, rest: string)
    requires |titles| >= 1
    requires forall k :: 0 <= k < |titles| ==> '\n' !in titles[k]
    ensures forall k :: 0 <= k < |titles| ==> Contains(FirstLine(Join(titles, ',') + "\n" + rest), titles[k])
  {
    var line := Join(titles, ',');
    assert '\n' !in line by { JoinAvoids(titles, ',', '\n'); }
    FirstLineOfLine(line, rest);
    forall k | 0 <= k < |titles| ensures Contains(line, titles[k]) {
      JoinContainsPart(titles, ',', k);
    }
  }

  lemma {:induction false} JoinAvoids(parts: seq<string>, sep: char, c: char)
    requires |parts| >= 1 && c != sep
    requires forall k :: 0 <= k < |parts| ==> c !in parts[k]
    ensures c !in Join(parts, sep)
  {
    if |parts| > 1 {
      JoinAvoids(parts[1..], sep, c);
    }
  }

  lemma {:induction false} JoinContainsPart(parts: seq<string>, sep: char, k: nat)
    requires k < |parts|
    ensures Contains(Join(parts, sep), parts[k])
  {
    var j := Join(parts, sep);
    if |parts| == 1 {
      ContainsSlice(j, 0, |j|);
      assert j[0..|j|] == j;
    } else if k == 0 {
      ContainsSlice(j, 0, |parts[0]|);
      assert j[0..|parts[0]|] == parts[0];
    } else {
      JoinContainsPart(parts[1..], sep, k - 1);
      var t := Join(parts[1..], sep);
      var off := |parts[0]| + 1;
      assert j == parts[0] + [sep] + t;
      var i :| OccursAt(t, parts[k], i);
      assert OccursAt(j, parts[k], off + i) by {
        assert j[off + i..off + i + |parts[k]|] == t[i..i + |parts[k]|];
      }
    }
  }

  lemma FirstLineOfLine(line: string, rest: string)
    requires '\n' !in line
    ensures FirstLine(line + "\n" + rest) == line
  {
    var s := line + "\n" + rest;
    var r := FirstLine(s);
    assert s[|line|] == '\n';
    assert forall k :: 0 <= k < |line| ==> s[k] == line[k] && s[k] != '\n';
    assert |r| == |line|;
    assert r == s[..|r|] == line;
  }
}
