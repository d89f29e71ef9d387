/**
 * `useLastManufacturingOrder`: the manufacturing order last entered for each machine. Each page
 * that uses the hook holds its own copy, which starts with the seven empty orders when the page mounts.
 */
module LastOrders {

  /** The record the hook starts with: the seven known machines, all without an order. */
  const InitialOrders: map<string, string> := map[
    "5401 Fanuc Robodrill" := "",
    "5701 Fanuc Robodrill" := "",
    "5702 Fanuc Robodrill" := "",
    "5703 Fanuc Robodrill" := "",
    "5704 Fanuc Robodrill" := "",
    "5705 Fanuc Robodrill" := "",
    "5706 Fanuc Robodrill" := ""
  ]

  /** `lastOrders[machineId] || ""`: the stored order, or `""` for a machine without one. */
  function OrderIn(orders: map<string, string>, machineId: string): (order: string)
    ensures machineId in orders ==> order == orders[machineId]
    ensures machineId !in orders ==> order == ""
  {
    if machineId in orders then orders[machineId] else ""
  }

  /** The start state has exactly the seven machines, and every lookup gives `""`. */
  lemma InitialOrdersEmpty(machineId: string)
    ensures |InitialOrders| == 7
    ensures OrderIn(InitialOrders, machineId) == ""
  {
  }

  /** Storing an order for one machine: reading it back gives that order, other machines keep theirs. */
  lemma StoreThenRead(orders: map<string, string>, machineId: string, order: string, other: string)
    ensures OrderIn(orders[machineId := order], machineId) == order
    ensures other != machineId ==> OrderIn(orders[machineId := order], other) == OrderIn(orders, other)
  {
  }

  /** A later order for the same machine replaces the earlier one. */
  lemma StoreTwice(orders: map<string, string>, machineId: string, first: string, second: string)
    ensures orders[machineId := first][machineId := second] == orders[machineId := second]
  {
  }

  /** The hook's state. */
  class LastOrderStore {
    var lastOrders: map<string, string>

    constructor()
      ensures lastOrders == InitialOrders
    {
      lastOrders := InitialOrders;
    }

    /** `getLastOrder`. */
    function GetLastOrder(machineId: string): (order: string)
      reads this
      ensures order == OrderIn(lastOrders, machineId)
    {
      if machineId in lastOrders then lastOrders[machineId] else ""
    }

    /** `setLastOrder`: replaces one key, keeping all the others. */
    method SetLastOrder(machineId: string, order: string)
      modifies this
      ensures lastOrders == old(lastOrders)[machineId := order]
      ensures GetLastOrder(machineId) == order
      ensures forall m :: m != machineId ==> GetLastOrder(m) == old(GetLastOrder(m))
    {
      lastOrders := lastOrders[machineId := order];
    }
  }
}
