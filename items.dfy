/** Item stacks, reduced to a copyable value: what they are made of and how many there are. */
module Items {

  datatype ItemData = ItemData(material: string, amount: int)

  /** A mutable item stack, as the engine hands it out. */
  class Item {
    var material: string
    var amount: int

    /** The value of the stack; two stacks are equal when their values are. */
    function Value(): ItemData
      reads this
    {
      ItemData(material, amount)
    }

    constructor (data: ItemData)
      ensures Value() == data
    {
      material := data.material;
      amount := data.amount;
    }

    /** `clone()`: a new stack equal to this one. */
    method Clone() returns (copy: Item)
      ensures fresh(copy) && copy.Value() == Value()
    {
      copy := new Item(Value());
    }

    method SetAmount(n: int)
      modifies this
      ensures Value() == old(Value()).(amount := n)
    {
      amount := n;
    }
  }
}
