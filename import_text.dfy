/**
 * The text of the react-query import line: the identifiers in use joined by
 * ", " as `Array.prototype.join(', ')` does, wrapped in a named import from
 * 'react-query'. `ParseImportLine` reads such a line back, which shows that
 * the line names exactly the given identifiers, in the given order.
 */
module ImportText {

  import opened Wrappers

  const Separator := ", "
  const LineHead := "import { "
  const LineTail := " } from 'react-query';"

  /** `ids.join(', ')`: the empty list joins to the empty string; otherwise
      the text starts with the first item and ends with the last. */
  function Join(ids: seq<string>): (r: string)
    ensures ids == [] ==> r == ""
    ensures |ids| >= 1 ==> |r| >= |ids[0]| && r[..|ids[0]|] == ids[0]
    ensures |ids| >= 1 ==> |r| >= |ids[|ids| - 1]| && r[|r| - |ids[|ids| - 1]|..] == ids[|ids| - 1]
  {
    if |ids| == 0 then ""
    else if |ids| == 1 then ids[0]
    else ids[0] + Separator + Join(ids[1..])
  }

  /** The import line `getImports` adds for the given identifiers. */
  function ImportLine(ids: seq<string>): (line: string)
    ensures |line| == |LineHead| + |Join(ids)| + |LineTail|
    ensures line[..|LineHead|] == LineHead && line[|line| - |LineTail|..] == LineTail
    ensures line[|LineHead|..|line| - |LineTail|] == Join(ids)
  {
    LineHead + Join(ids) + LineTail
  }

  /** What can stand between the separators of a joined list and still be
      read back: a non-empty name without a comma. Identifiers such as
      `useQuery` or `UseMutationOptions` are of this kind. */
  predicate IsListItem(id: string) {
    id != "" && ',' !in id
  }

  predicate AllListItems(ids: seq<string>) {
    forall i :: 0 <= i < |ids| ==> IsListItem(ids[i])
  }

  /** Splits `s` at every ", ", keeping empty pieces; there is always at
      least one piece. */
  function Split(s: string): (pieces: seq<string>)
    ensures |pieces| >= 1
    decreases |s|
  {
    if |s| >= 2 && s[0] == ',' && s[1] == ' ' then [""] + Split(s[2..])
    else if s == "" then [""]
    else
      var rest := Split(s[1..]);
      [[s[0]] + rest[0]] + rest[1..]
  }

  /** The list of names between the braces: none when the text is empty. */
  function ParseList(s: string): (ids: seq<string>)
  {
    if s == "" then [] else Split(s)
  }

  /** Reads back the identifiers named by an import line from 'react-query';
      `None` when the line does not have that shape. */
  function ParseImportLine(line: string): (ids: Option<seq<string>>)
  {
    if |line| >= |LineHead| + |LineTail|
       && line[..|LineHead|] == LineHead
       && line[|line| - |LineTail|..] == LineTail
    then Some(ParseList(line[|LineHead|..|line| - |LineTail|]))
    else None
  }

  lemma {:induction false} SplitSingle(x: string)
    requires ',' !in x
    ensures Split(x) == [x]
  {
    if x != "" {
      assert ',' !in x[1..];
      SplitSingle(x[1..]);
      assert [x[0]] + x[1..] == x;
    }
  }

  lemma {:induction false} SplitAfterItem(x: string, rest: string)
    requires ',' !in x
    ensures Split(x + Separator + rest) == [x] + Split(rest)
  {
    var s := x + Separator + rest;
    if x == "" {
      assert s[2..] == rest;
    } else {
      assert s[0] == x[0];
      assert s[1..] == x[1..] + Separator + rest;
      assert ',' !in x[1..];
      SplitAfterItem(x[1..], rest);
      assert [x[0]] + x[1..] == x;
    }
  }

  /** Splitting undoes joining, for a non-empty list of list items. */
  lemma {:induction false} SplitJoin(ids: seq<string>)
    requires |ids| >= 1 && AllListItems(ids)
    ensures Split(Join(ids)) == ids
  {
    if |ids| == 1 {
      assert IsListItem(ids[0]);
      SplitSingle(ids[0]);
    } else {
      var rest := ids[1..];
      assert AllListItems(rest) by {
        forall i | 0 <= i < |rest| ensures IsListItem(rest[i]) { assert rest[i] == ids[i + 1]; }
      }
      assert IsListItem(ids[0]);
      assert Join(ids) == ids[0] + Separator + Join(rest);
      SplitJoin(rest);
      SplitAfterItem(ids[0], Join(rest));
      assert [ids[0]] + rest == ids;
    }
  }

  /** The import line names exactly the identifiers it was built from, in
      their order; in particular an identifier appears in it as often as in
      the list. An empty list gives a line with empty braces. */
  lemma {:induction false} ImportLineRoundTrip(ids: seq<string>)
    ensures AllListItems(ids) ==> ParseImportLine(ImportLine(ids)) == Some(ids)
  {
    if AllListItems(ids) && ids != [] {
      SplitJoin(ids);
    }
  }
}
