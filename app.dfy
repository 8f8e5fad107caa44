/**
 * The page, a task item and the add form working together.
 */
module App {
  import opened Wrappers
  import opened Text
  import opened Index
  import opened Item
  import opened Form

  /** Add "Buy milk" through the form, complete it, rename it through the
      item with an empty description, delete it: each step as the page sees it. */
  lemma BuyMilkScenario(id: string)
    ensures NewTask("Buy milk", "2%", id) == Some(Task(id, "Buy milk", "2%", false))
    ensures Apply([], Add(Task(id, "Buy milk", "2%", false))) == [Task(id, "Buy milk", "2%", false)]
    ensures Apply([Task(id, "Buy milk", "2%", false)], Toggle(id)) == [Task(id, "Buy milk", "2%", true)]
    ensures SaveEvent(id, "Buy oat milk", "") == Some(Edit(id, "Buy oat milk", ""))
    ensures Apply([Task(id, "Buy milk", "2%", true)], Edit(id, "Buy oat milk", ""))
            == [Task(id, "Buy oat milk", "", true)]
    ensures Apply([Task(id, "Buy oat milk", "", true)], Delete(id)) == []
  {
    var milk, oatMilk := "Buy milk", "Buy oat milk";
    assert !IsWhitespace(milk[0]);
    assert !IsWhitespace(oatMilk[0]);
  }
}
