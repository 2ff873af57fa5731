/** Writing one aggregation table as collapsed-stack text
    (CollapsedStackWriter.java), and reading such text back. */
module CollapsedStackWriter {
  import opened Wrappers
  import opened Text

  /** One line of collapsed-stack text: the key, one space, the decimal value
      and a newline. */
  function Line(key: string, value: int): string {
    key + " " + IntToString(value) + "\n"
  }

  /** `order` lists every key of `table` exactly once: an iteration order of
      the map's entry set. */
  predicate IsEnumeration(order: seq<string>, table: map<string, int>) {
    && |order| == |table|
    && (forall i :: 0 <= i < |order| ==> order[i] in table)
    && (forall i, j :: 0 <= i < j < |order| ==> order[i] != order[j])
  }

  /** The text of the lines of the keys in `order`, in that order. */
  function Render(table: map<string, int>, order: seq<string>): string
    requires forall i :: 0 <= i < |order| ==> order[i] in table
  {
    if order == [] then "" else Line(order[0], table[order[0]]) + Render(table, order[1..])
  }

  /** Writing one more entry after the others adds its line at the end. */
  lemma {:induction false} RenderSnoc(table: map<string, int>, order: seq<string>, key: string)
    requires forall i :: 0 <= i < |order| ==> order[i] in table
    requires key in table
    ensures Render(table, order + [key]) == Render(table, order) + Line(key, table[key])
    decreases |order|
  {
    if order != [] {
      assert (order + [key])[1..] == order[1..] + [key];
      RenderSnoc(table, order[1..], key);
    } else {
      assert ([key])[1..] == [];
    }
  }

  /** Writing the pieces of a line one after the other appends the line. */
  lemma AppendLine(before: string, key: string, value: int)
    ensures before + key + " " + IntToString(value) + "\n" == before + Line(key, value)
  {
    var digits := IntToString(value);
    calc {
      before + key + " " + digits + "\n";
      (before + key) + (" " + digits + "\n");
      before + (key + (" " + digits + "\n"));
      before + Line(key, value);
    }
  }

  /** `saveFile`: one line per entry of the table, in the map's iteration order
      (which Java's HashMap does not specify: the order is an out-parameter
      of the proof, chosen by the loop), and nothing else. */
  method SaveFile(stackMap: map<string, int>) returns (content: string, ghost order: seq<string>)
    ensures IsEnumeration(order, stackMap)
    ensures content == Render(stackMap, order)
  {
    content := "";
    order := [];
    var rest := stackMap.Keys;
    while rest != {}
      invariant rest <= stackMap.Keys
      invariant forall i :: 0 <= i < |order| ==> order[i] in stackMap && order[i] !in rest
      invariant forall i, j :: 0 <= i < j < |order| ==> order[i] != order[j]
      invariant |order| + |rest| == |stackMap|
      invariant content == Render(stackMap, order)
      decreases |rest|
    {
      var key :| key in rest;
      ghost var before := content;
      content := content + key;
      content := content + " ";
      content := content + IntToString(stackMap[key]);
      content := content + "\n";
      AppendLine(before, key, stackMap[key]);
      RenderSnoc(stackMap, order, key);
      order := order + [key];
      rest := rest - {key};
    }
  }

  // ---------------------------------------------------------------------------
  // Reading collapsed-stack text back
  // ---------------------------------------------------------------------------

  /** Cuts a line (without its newline) at its last space into the key and the
      decimal value; None when there is no space or the value is not a number. */
  function SplitLine(line: string): Option<(string, int)> {
    match LastIndexOf(line, ' ')
    case None => None
    case Some(j) =>
      match ParseInt(line[j + 1..])
      case None => None
      case Some(v) => Some((line[..j], v))
  }

  /** Reads collapsed-stack text as its entries, line by line; None when a
      line lacks its newline or does not end in ` <number>`. */
  function Decode(text: string): Option<seq<(string, int)>>
    decreases |text|
  {
    if text == [] then Some([])
    else
      match IndexOf(text, '\n')
      case None => None
      case Some(j) =>
        match SplitLine(text[..j])
        case None => None
        case Some(entry) =>
          match Decode(text[j + 1..])
          case None => None
          case Some(rest) => Some([entry] + rest)
  }

  /** The entries of `table` in the order `order` lists their keys. */
  function Entries(table: map<string, int>, order: seq<string>): (r: seq<(string, int)>)
    requires forall i :: 0 <= i < |order| ==> order[i] in table
    ensures |r| == |order|
    ensures forall i :: 0 <= i < |order| ==> r[i] == (order[i], table[order[i]])
  {
    seq(|order|, i requires 0 <= i < |order| => (order[i], table[order[i]]))
  }

  /** The first entry, then the entries of the remaining keys. */
  lemma EntriesCons(table: map<string, int>, order: seq<string>)
    requires forall i :: 0 <= i < |order| ==> order[i] in table
    requires order != []
    ensures Entries(table, order) == [(order[0], table[order[0]])] + Entries(table, order[1..])
  {
  }

  /** The map of a list of entries; a later entry wins over an earlier one. */
  function ToMap(entries: seq<(string, int)>): map<string, int> {
    if entries == [] then map[] else ToMap(entries[1..])[entries[0].0 := entries[0].1]
  }

  /** Splitting a line at its last space gives back the key and the value,
      whatever spaces the key itself holds: the decimal text of the value has
      none. */
  lemma SplitLineRoundTrip(key: string, value: int)
    ensures SplitLine(key + " " + IntToString(value)) == Some((key, value))
  {
    var digits := IntToString(value);
    var s := key + [' '] + digits;
    assert key + " " + digits == s;
    LastIndexOfJoint(key, ' ', digits);
    assert s[..|key|] == key;
    assert s[|key| + 1..] == digits;
    ParseIntToString(value);
  }

  /** One line reads back as its entry, followed by what comes after it. */
  lemma LineRoundTrip(key: string, value: int, after: string)
    requires '\n' !in key
    ensures IndexOf(Line(key, value) + after, '\n') == Some(|key + " " + IntToString(value)|)
    ensures SplitLine((Line(key, value) + after)[..|key + " " + IntToString(value)|]) == Some((key, value))
    ensures (Line(key, value) + after)[|key + " " + IntToString(value)| + 1..] == after
  {
    var a := key + " " + IntToString(value);
    assert '\n' !in a;
    assert Line(key, value) + after == a + ['\n'] + after;
    IndexOfJoint(a, '\n', after);
    assert (a + ['\n'] + after)[..|a|] == a;
    assert (a + ['\n'] + after)[|a| + 1..] == after;
    SplitLineRoundTrip(key, value);
  }

  /** Reading a line and what follows it reads the line's entry and then what
      follows. */
  lemma DecodeLine(key: string, value: int, after: string)
    requires '\n' !in key
    requires Decode(after).Some?
    ensures Decode(Line(key, value) + after) == Some([(key, value)] + Decode(after).value)
  {
    var text := Line(key, value) + after;
    LineRoundTrip(key, value, after);
    assert text != [];
  }

  /** Reading written text gives back exactly the entries written, one per
      line, in the order they were written. */
  lemma {:induction false} DecodeRender(table: map<string, int>, order: seq<string>)
    requires forall i :: 0 <= i < |order| ==> order[i] in table && '\n' !in order[i]
    ensures Decode(Render(table, order)) == Some(Entries(table, order))
    decreases |order|
  {
    if order != [] {
      var key := order[0];
      var rest := Render(table, order[1..]);
      assert Render(table, order) == Line(key, table[key]) + rest;
      DecodeRender(table, order[1..]);
      DecodeLine(key, table[key], rest);
      EntriesCons(table, order);
    }
  }

  /** The entries listed in an enumeration of a table make up that table. */
  lemma {:induction false} ToMapEntries(table: map<string, int>, order: seq<string>)
    requires IsEnumeration(order, table)
    ensures ToMap(Entries(table, order)) == table
    decreases |order|
  {
    if order == [] {
      assert |table| == 0;
    } else {
      var key := order[0];
      var smaller := table - {key};
      assert |smaller| == |table| - 1;
      forall i | 0 <= i < |order[1..]| ensures order[1..][i] in smaller {
        assert order[1..][i] == order[i + 1] != order[0];
      }
      ToMapEntries(smaller, order[1..]);
      assert Entries(table, order)[1..] == Entries(smaller, order[1..]);
      assert smaller[key := table[key]] == table;
    }
  }

  /** What `saveFile` writes reads back as the table it was given: one line per
      entry, each key with its own value, nothing more (keys never hold a
      newline here, which is what the line format depends on). */
  lemma SaveFileRoundTrip(table: map<string, int>, order: seq<string>)
    requires IsEnumeration(order, table)
    requires forall k :: k in table ==> '\n' !in k
    ensures Decode(Render(table, order)).Some?
    ensures |Decode(Render(table, order)).value| == |table|
    ensures ToMap(Decode(Render(table, order)).value) == table
  {
    DecodeRender(table, order);
    ToMapEntries(table, order);
  }

  /** An empty table is written as empty text. */
  lemma EmptyTable(order: seq<string>)
    requires IsEnumeration(order, map[])
    ensures Render(map[], order) == ""
  {
  }
}
