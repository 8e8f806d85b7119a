/**
 * The category legend: the table's rows grouped by their `group`, groups in
 * order of first appearance (the order `Object.entries` gives non-numeric
 * keys), and a title for each group.
 */
module Legend {
  import opened Types
  import Sequences

  /** One key of the accumulator and the rows pushed under it. */
  datatype Group = Group(key: string, members: seq<CategoryColor>)

  function Keys(groups: seq<Group>): (keys: seq<string>)
    ensures |keys| == |groups|
    ensures forall i :: 0 <= i < |groups| ==> keys[i] == groups[i].key
  {
    seq(|groups|, i requires 0 <= i < |groups| => groups[i].key)
  }

  /** One step of the reduce: create the group on first sight of its key, then push the row into it. */
  function Push(acc: seq<Group>, category: CategoryColor): (r: seq<Group>)
    ensures |r| == if category.group in Keys(acc) then |acc| else |acc| + 1
  {
    if acc == [] then [Group(category.group, [category])]
    else if acc[0].key == category.group then [Group(acc[0].key, acc[0].members + [category])] + acc[1..]
    else [acc[0]] + Push(acc[1..], category)
  }

  /** The accumulator after the reduce has visited every row of `table`. */
  function Grouped(table: seq<CategoryColor>): (groups: seq<Group>)
    ensures |groups| <= |table|
  {
    if table == [] then [] else Push(Grouped(table[..|table| - 1]), table[|table| - 1])
  }

  /** The rows stored under `key`, or none when the key is absent. */
  function Lookup(groups: seq<Group>, key: string): seq<CategoryColor> {
    if groups == [] then [] else if groups[0].key == key then groups[0].members else Lookup(groups[1..], key)
  }

  /** The distinct elements of `s` in order of first appearance. */
  function FirstAppearances(s: seq<string>): seq<string> {
    if s == [] then []
    else
      var front := FirstAppearances(s[..|s| - 1]);
      if s[|s| - 1] in front then front else front + [s[|s| - 1]]
  }

  /** Each key appears once, and exactly the elements of `s` appear. */
  lemma {:induction false} FirstAppearancesDistinct(s: seq<string>)
    ensures forall i, j :: 0 <= i < j < |FirstAppearances(s)| ==> FirstAppearances(s)[i] != FirstAppearances(s)[j]
    ensures forall x :: x in FirstAppearances(s) <==> x in s
  {
    if s != [] {
      FirstAppearancesDistinct(s[..|s| - 1]);
      assert s == s[..|s| - 1] + [s[|s| - 1]];
    }
  }

  function GroupsOf(table: seq<CategoryColor>): (groups: seq<string>)
    ensures |groups| == |table|
    ensures forall i :: 0 <= i < |table| ==> groups[i] == table[i].group
  {
    seq(|table|, i requires 0 <= i < |table| => table[i].group)
  }

  function InGroup(key: string): CategoryColor -> bool {
    (category: CategoryColor) => category.group == key
  }

  /** Pushing a row extends exactly the row's own group, at its end, and adds its key at the end if new. */
  lemma PushEffect(acc: seq<Group>, category: CategoryColor, key: string)
    ensures Lookup(Push(acc, category), key) ==
              if key == category.group then Lookup(acc, key) + [category] else Lookup(acc, key)
    ensures Keys(Push(acc, category)) ==
              if category.group in Keys(acc) then Keys(acc) else Keys(acc) + [category.group]
  {
    PushLookup(acc, category, key);
    PushKeys(acc, category);
  }

  lemma {:induction false} PushLookup(acc: seq<Group>, category: CategoryColor, key: string)
    ensures Lookup(Push(acc, category), key) ==
              if key == category.group then Lookup(acc, key) + [category] else Lookup(acc, key)
  {
    if acc != [] && acc[0].key != category.group {
      PushLookup(acc[1..], category, key);
    }
  }

  lemma {:induction false} PushKeys(acc: seq<Group>, category: CategoryColor)
    ensures Keys(Push(acc, category)) ==
              if category.group in Keys(acc) then Keys(acc) else Keys(acc) + [category.group]
  {
    if acc != [] && acc[0].key != category.group {
      PushKeys(acc[1..], category);
      assert Keys(acc) == [acc[0].key] + Keys(acc[1..]);
      assert Keys(Push(acc, category)) == [acc[0].key] + Keys(Push(acc[1..], category));
    } else if acc != [] {
      assert Keys(Push(acc, category)) == Keys(acc);
    }
  }

  /**
   * The grouping partitions the table: the rows under each key are exactly
   * the table's rows of that group, each once, in table order.
   */
  lemma {:induction false} GroupedPartitions(table: seq<CategoryColor>, key: string)
    ensures Lookup(Grouped(table), key) == Sequences.Filter(table, InGroup(key))
  {
    if table != [] {
      var front, last := table[..|table| - 1], table[|table| - 1];
      assert table == front + [last];
      calc {
        Lookup(Grouped(table), key);
        Lookup(Push(Grouped(front), last), key);
        { PushEffect(Grouped(front), last, key); }
        Lookup(Grouped(front), key) + (if last.group == key then [last] else []);
        { GroupedPartitions(front, key); assert [last][1..] == []; }
        Sequences.Filter(front, InGroup(key)) + Sequences.Filter([last], InGroup(key));
        { Sequences.FilterAppend(front, [last], InGroup(key)); }
        Sequences.Filter(table, InGroup(key));
      }
    }
  }

  /** The groups are listed in the order their keys first appear in the table, each key once. */
  lemma {:induction false} GroupedKeyOrder(table: seq<CategoryColor>)
    ensures Keys(Grouped(table)) == FirstAppearances(GroupsOf(table))
  {
    if table != [] {
      var front, last := table[..|table| - 1], table[|table| - 1];
      GroupedKeyOrder(front);
      PushEffect(Grouped(front), last, "");
      assert GroupsOf(table)[..|table| - 1] == GroupsOf(front);
    }
  }

  /** The reduce over the table, with the accumulator updated in place row by row. */
  method GroupCategories(table: seq<CategoryColor>) returns (groups: seq<Group>)
    ensures groups == Grouped(table)
  {
    groups := [];
    var i := 0;
    while i < |table|
      invariant 0 <= i <= |table|
      invariant groups == Grouped(table[..i])
    {
      assert table[..i + 1][..i] == table[..i];
      groups := Push(groups, table[i]);
      i := i + 1;
    }
    assert table[..i] == table;
  }

  /** The legend's groups for the category table: danger, warning, info and secondary, in that order. */
  lemma LegendGroupOrder()
    ensures Keys(Grouped(MarkerCategories)) == LegendGroups
  {
    GroupedKeyOrder(MarkerCategories);
    var g := GroupsOf(MarkerCategories);
    assert g == ["danger", "danger", "warning", "warning", "info", "info", "secondary"];
    assert FirstAppearances(g[..1]) == ["danger"] by { assert g[..1][..0] == []; }
    assert FirstAppearances(g[..2]) == ["danger"] by { assert g[..2][..1] == g[..1]; }
    assert FirstAppearances(g[..3]) == ["danger", "warning"] by { assert g[..3][..2] == g[..2]; }
    assert FirstAppearances(g[..4]) == ["danger", "warning"] by { assert g[..4][..3] == g[..3]; }
    assert FirstAppearances(g[..5]) == ["danger", "warning", "info"] by { assert g[..5][..4] == g[..4]; }
    assert FirstAppearances(g[..6]) == ["danger", "warning", "info"] by { assert g[..6][..5] == g[..5]; }
    assert g[..7][..6] == g[..6] && g[..7] == g;
  }

  /** The title shown above a group; a key outside the four known groups gets none. */
  function GroupTitle(key: string): (title: string)
    ensures title != "" <==> key in LegendGroups
  {
    if key == "danger" then "Tehlikeler"
    else if key == "warning" then "Uyarılar"
    else if key == "info" then "Bilgi"
    else if key == "secondary" then "Diğer"
    else ""
  }
}
