// Auto-flow layout: panels packed greedily into rows by width.
module Layout {

  // An absent or zero width means the full 12 columns.
  datatype Panel = Panel(id: string, width: int) {
    function W(): int {
      if width == 0 then 12 else width
    }
  }

  function Capacity(w: int): nat
    ensures Capacity(w) >= 1
  {
    if w == 6 then 2 else if w == 4 then 3 else 1
  }

  // One row: panels of one width, no more than that width admits.
  ghost predicate IsRow(row: seq<Panel>) {
    && 1 <= |row| <= Capacity(row[0].W())
    && forall i :: 0 <= i < |row| ==> row[i].W() == row[0].W()
  }

  // A row is one panel of any width, or up to two halves or up to three thirds of the
  // twelve columns.
  lemma RowIff(row: seq<Panel>)
    ensures IsRow(row) <==>
              || |row| == 1
              || (|row| == 2 && row[0].width == row[1].width == 6)
              || (2 <= |row| <= 3 && forall i :: 0 <= i < |row| ==> row[i].width == 4)
  {
  }

  function Flatten(rows: seq<seq<Panel>>): seq<Panel> {
    if rows == [] then [] else Flatten(rows[..|rows| - 1]) + rows[|rows| - 1]
  }

  ghost predicate IsLayout(rows: seq<seq<Panel>>, panels: seq<Panel>) {
    && Flatten(rows) == panels
    && forall r :: 0 <= r < |rows| ==> IsRow(rows[r])
  }

  // How many panels the greedy row starting at i takes, having taken k.
  function Taken(panels: seq<Panel>, i: nat, k: nat): (n: nat)
    requires i < |panels| && i + k <= |panels| && k <= Capacity(panels[i].W())
    ensures k <= n <= Capacity(panels[i].W()) && i + n <= |panels|
    ensures forall j :: i + k <= j < i + n ==> panels[j].W() == panels[i].W()
    ensures n == Capacity(panels[i].W()) || i + n == |panels| || panels[i + n].W() != panels[i].W()
    decreases |panels| - i - k
  {
    if k < Capacity(panels[i].W()) && i + k < |panels| && panels[i + k].W() == panels[i].W()
    then Taken(panels, i, k + 1)
    else k
  }

  // Rows the greedy layout needs from panel i on.
  function Greedy(panels: seq<Panel>, i: nat): nat
    requires i <= |panels|
    decreases |panels| - i
  {
    if i == |panels| then 0 else 1 + Greedy(panels, i + Taken(panels, i, 0))
  }

  // Every panel is laid out once, in order, in proper rows, and in the fewest rows any
  // order-preserving grouping into proper rows can have.
  method LayoutPanels(panels: seq<Panel>) returns (rows: seq<seq<Panel>>)
    ensures IsLayout(rows, panels)
    ensures forall other :: IsLayout(other, panels) ==> |rows| <= |other|
  {
    hide Taken, IsRow;
    rows := [];
    var i := 0;
    assert panels[..0] == [];
    while i < |panels|
      invariant i <= |panels|
      invariant Flatten(rows) == panels[..i]
      invariant forall r :: 0 <= r < |rows| ==> IsRow(rows[r])
      invariant |rows| + Greedy(panels, i) == Greedy(panels, 0)
    {
      var row := TakeRow(panels, i);
      AppendRow(rows, row);
      assert panels[..i + |row|] == panels[..i] + row;
      rows := rows + [row];
      i := i + |row|;
    }
    assert panels[..i] == panels;
    forall other | IsLayout(other, panels)
      ensures |rows| <= |other|
    {
      GreedyOptimal(panels, other);
    }
  }

  method TakeRow(panels: seq<Panel>, start: nat) returns (row: seq<Panel>)
    requires start < |panels|
    ensures |row| == Taken(panels, start, 0) && row == panels[start..start + |row|]
    ensures IsRow(row)
  {
    var w := panels[start].W();
    if w == 6 || w == 4 {
      row := [];
      var perRow := 12 / w;
      assert perRow == Capacity(w);
      var k, i := 0, start;
      while k < perRow && i < |panels| && panels[i].W() == w
        invariant i == start + k <= |panels| && k <= perRow
        invariant row == panels[start..i]
        invariant Taken(panels, start, 0) == Taken(panels, start, k)
      {
        assert panels[start..i + 1] == panels[start..i] + [panels[i]];
        row := row + [panels[i]];
        k, i := k + 1, i + 1;
      }
    } else {
      row := [panels[start]];
      assert Taken(panels, start, 0) == Taken(panels, start, 1) == 1;
    }
  }

  lemma AppendRow(rows: seq<seq<Panel>>, row: seq<Panel>)
    ensures Flatten(rows + [row]) == Flatten(rows) + row
  {
    assert (rows + [row])[..|rows|] == rows;
  }

  // Starting one panel later never costs a row.
  lemma {:induction false} GreedySuffix(panels: seq<Panel>, i: nat, j: nat)
    requires i <= j <= |panels|
    ensures Greedy(panels, j) <= Greedy(panels, i)
    decreases |panels| - i, j - i
  {
    hide Taken;
    if i < j {
      var n := Taken(panels, i, 0);
      assert n >= 1;
      if j >= i + n {
        GreedySuffix(panels, i + n, j);
      } else {
        // j is inside the first row: its own row reaches at least as far
        var m := Taken(panels, j, 0);
        assert j + m >= i + n;
        GreedySuffix(panels, i + n, j + m);
      }
    }
  }

  lemma GreedyOptimal(panels: seq<Panel>, rows: seq<seq<Panel>>)
    requires IsLayout(rows, panels)
    ensures Greedy(panels, 0) <= |rows|
  {
    assert rows[..|rows|] == rows;
    GreedyIsAhead(panels, rows, |rows|);
  }

  // After r rows of any layout, the greedy layout has covered at least as much.
  lemma {:induction false} GreedyIsAhead(panels: seq<Panel>, rows: seq<seq<Panel>>, r: nat)
    requires IsLayout(rows, panels) && r <= |rows|
    ensures Flatten(rows[..r]) <= panels
    ensures Greedy(panels, 0) <= r + Greedy(panels, |Flatten(rows[..r])|)
  {
    hide Taken, IsRow;
    PrefixFlattens(rows, r);
    if r > 0 {
      GreedyIsAhead(panels, rows, r - 1);
      assert rows[..r][..r - 1] == rows[..r - 1];
      var before, row := Flatten(rows[..r - 1]), rows[r - 1];
      assert Flatten(rows[..r]) == before + row;
      OneRowOfAny(panels, |before|, row);
    } else {
      assert rows[..0] == [];
    }
  }

  lemma OneRowOfAny(panels: seq<Panel>, i: nat, row: seq<Panel>)
    requires IsRow(row) && i + |row| <= |panels| && panels[i..i + |row|] == row
    ensures Greedy(panels, i) <= 1 + Greedy(panels, i + |row|)
  {
    assert forall k :: 0 <= k < |row| ==> row[k] == panels[i + k];
    assert panels[i] == row[0];
    assert |row| <= Taken(panels, i, 0);
    GreedySuffix(panels, i + |row|, i + Taken(panels, i, 0));
  }

  lemma PrefixFlattens(rows: seq<seq<Panel>>, r: nat)
    requires r <= |rows|
    ensures Flatten(rows[..r]) <= Flatten(rows)
    decreases |rows|
  {
    if r < |rows| {
      PrefixFlattens(rows[..|rows| - 1], r);
      assert rows[..|rows| - 1][..r] == rows[..r];
    } else {
      assert rows[..r] == rows;
    }
  }
}
