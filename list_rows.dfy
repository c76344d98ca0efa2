/**
 * The shape both list screens give their `LazyColumn`: one placeholder
 * item when the list is empty, otherwise one card per element, in order.
 */
module ListRows {

  datatype Row<T> = EmptyPlaceholder | Card(value: T)

  function Rows<T>(values: seq<T>): (rows: seq<Row<T>>)
    ensures values == [] ==> rows == [EmptyPlaceholder]
    ensures values != [] ==> |rows| == |values|
    ensures values != [] ==> forall i :: 0 <= i < |values| ==> rows[i] == Card(values[i])
  {
    if values == [] then [EmptyPlaceholder]
    else seq(|values|, i requires 0 <= i < |values| => Card(values[i]))
  }

  /** The values the cards of a list show, in order. */
  function CardValues<T>(rows: seq<Row<T>>): seq<T> {
    if rows == [] then []
    else (if rows[0].Card? then [rows[0].value] else []) + CardValues(rows[1..])
  }

  /**
   * The cards show every value once, in list order, and the placeholder
   * appears exactly when there is nothing to show.
   */
  lemma {:induction false} RowsShowValues<T>(values: seq<T>)
    ensures CardValues(Rows(values)) == values
    ensures EmptyPlaceholder in Rows(values) <==> values == []
  {
    if values != [] {
      RowsShowValues(values[1..]);
      var rows := Rows(values);
      if values[1..] != [] {
        assert rows[1..] == Rows(values[1..]);
      } else {
        assert rows[1..] == [];
      }
      assert forall i :: 0 <= i < |rows| ==> rows[i].Card?;
    }
  }
}
