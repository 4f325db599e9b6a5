# Verified models of the game server's stateful cores

This project models the parts of the server that keep state over time, and proves what they keep.

- **Items.** `ItemForest`, `ItemSteps`, `ContainerWalk`, `Containers`, `ItemMoves`, `DepotLimits` and `ItemAdds` model
  nested containers with cached weights, depot chests with an item limit, inboxes, and the functions that move and add
  items. Items are nodes of a store; a pointer is an index there. `Money` models paying with coins and giving change.
- **Market and trade.** `MarketGoods` and `Market` model offers held in escrow on top of the item store; `Trading`
  models the exchange between two players.
- **Persistence.** `PlayerItems` (database rows), `HouseItems` (byte stream), `OtbFile` (node file with escape bytes)
  and `Base32Secret` (decoding of two-factor secrets) are round trips. `OtbParser` is the parser of node files with its
  stack of pointers into growing vectors.
- **Time and caches.** `WalkCache`, `DecayWheel`, `DamageList` and `Conditions`.
- **Concurrency.** `Connection` (outgoing messages and the packet limit) and `DatabaseTasks` (a queue with several
  consumers). Each region that holds the lock is one step; every interleaving of steps is covered.

`Sums` holds sums over lists, `Common` shared types. Where the source changes things in place the model is a class with the same fields, and
its methods are tied to functions of the old state; main results then speak about those functions, or about every run
(`ItemMoves.RunMoves`, `Market.Exchange.RunPromptly`, `Market.Exchange.Run`, `Trading.TradeFloor.Run`, `DecayWheel.Wheel.Run`,
`Conditions.Creature.Run`, `Connection.Connection.Run`, `DatabaseTasks.TaskQueue.Run`).

`dafny verify dfyconfig.toml` checks everything.

## What does not hold

Ten properties one would expect turn out to be false of the code. The model keeps the code as it is; for each there
is a proof that it fails and of when it holds.

- The shifted walk cache differs from a rebuilt one after a step to the south-east or south-west: `getDistanceY` is an
  absolute distance (src/position.h:67), so the column shift leaves out row 0 instead of the last row
  (`WalkCache.SouthDiagonalGoesWrong`, `WalkCache.ShiftIsRebuildIff`).
- Expired market offers are refunded by the amount the query saw, not by the amount in the table. Money and goods are
  conserved if and only if no amount changed in between (`Market.Exchange.ProcessExpiredOffers`, and
  `Market.Exchange.Run` over every run). If every query is processed before anything else happens they are always
  conserved (`Market.Exchange.RunPromptly`). A run that creates money is `Market.MoneyFromNothing`.
- Goods returned by the market are lost exactly when the item cannot be picked up, because the inbox refuses them
  (`MarketGoods.Deliver`, `Market.Exchange.CancelOffer`).
- The item limit of a depot chest is not always asked for: an addition to a bag inside the chest respects it if and only
  if the chest is placed, and one straight into the chest always does (`DepotLimits.LimitKeptIff`,
  `DepotLimits.UnplacedDepotOverflows`).
- The damage list adds up to the amount if and only if the amount is at least `start * (start + 1) / 2`
  (`DamageList.GenerateDamageList`), which is weaker than `start * start`.
- Strings longer than 65535 bytes are written as empty strings (`HouseItems.StringSurvivesIff`).
- Saved items come back if and only if the ids of their roots lie in the range that the loader accepts and, for
  inventory slots, no two roots have the same id, whatever ids the roots have (`PlayerItems.RestoredIffInRange`). A root
  id from 101 on is also the id of a row, and the item goes into the item of that row, even into itself
  (`PlayerItems.CollidingId`, `PlayerItems.LoadedIntoItself`); of two items in one slot one is lost
  (`PlayerItems.SecondLost`).
- The database worker can sleep for ever: it tests the state before `shutdown` sets it and waits after `shutdown` has
  notified (`DatabaseTasks.LostWakeUp`, `DatabaseTasks.TaskQueue.StaysAsleep`). It ends if it is not about to take the
  lock at the notification; otherwise it ends if and only if a notification of a producer is still pending then and
  comes when the worker has gone to sleep (`DatabaseTasks.TaskQueue.EndsAfterNotification`). No task is lost by this.
- The transfer of a trade can begin while one trader offers nothing: both items are there if and only if neither trader
  accepted without an offer of their own (`Trading.TradeFloor.BeginTransfer`, `Trading.TradeFloor.Run` over every run).
  Any two idle traders can get there (`Trading.TradeFloor.OneSided`), and then the missing item is read exactly when the
  other trader offers their backpack (`Trading.MissingReadIff`).
- An item can get into two buckets of the decay wheel: two places put it on the waiting list without asking whether it
  already decays. Each item stays in one place if and only if it does not decay yet (`DecayWheel.Wheel.Enlist`).

## Model

| member | source | states |
|---|---|---|
| ItemForest.CachedTotalIsRecursiveTotal | src/container.cpp:149-160 | a consistent weight cache of a container is the recursive sum over everything it holds, at any depth |
| ItemForest.CacheIsDeep | src/container.cpp:149-160 | the same for any list of items and any additive quantity |
| ItemForest.AddAlongRepairs | src/container.cpp:149-155 | carrying a difference from one container up to its root repairs every cache that the change made wrong |
| ItemForest.AddAlongAt | src/container.cpp:149-155 | the walk up adds the difference to the containers of the chain, once each, and to no other |
| ItemForest.ChainUp | src/container.cpp:301-322 | the parents met on the walk up are closed upwards |
| ItemForest.ChainStable | src/container.cpp:301-322 | the walk up depends only on the parent links along it |
| ItemSteps.PutForest | src/container.cpp:713-723 | putting an item into a container that is not inside the item keeps containment a forest |
| ItemSteps.TakeForest | src/container.cpp:582-615 | taking an item out keeps containment a forest |
| ItemSteps.SetItemForest | src/container.cpp:535-556 | changing an item in place keeps the forest and every chain |
| ItemSteps.PutDeep | src/container.cpp:503-522 | an addition changes the recursive sums of exactly the containers above the place, by what the item amounts to with its contents |
| ItemSteps.TakeDeep | src/container.cpp:582-615 | a removal changes the recursive sums of exactly the containers above the place |
| ItemSteps.SetItemDeep | src/container.cpp:535-556 | an update changes the recursive sums of exactly the containers above the item, by the difference |
| ContainerWalk.IdsOnce | src/container.cpp:747-765 | below a list of siblings every item is listed once if a sibling is above it and never otherwise |
| ContainerWalk.HeldExactlyOnce | src/container.cpp:747-765 | what lies below a container is exactly the items whose parent chain leads through it, each once |
| ContainerWalk.IdsCount | src/container.cpp:202-209 | the number of items below a list is the recursive count |
| ContainerWalk.NextVisits | src/container.cpp:747-765 | one step of the iterator: the current item is the only one to leave what is still to be visited |
| ContainerWalk.ContainerIterator.constructor | src/container.cpp:732-740 | a new iterator has exactly the contents of the container before it |
| ContainerWalk.ContainerIterator.Advance | src/container.cpp:747-765 | exactly the current item leaves what remains |
| ContainerWalk.GetItemsRecursive | src/container.cpp:658-671 | returns every item whose chain leads through the container, each exactly once, and terminates |
| ContainerWalk.GetItemHoldingCount | src/container.cpp:202-209 | the counting loop returns the recursive count |
| ContainerWalk.IsHoldingItem | src/container.cpp:211-219 | true exactly when the container is in the chain of another item |
| Containers.PutKeeps | src/container.cpp:713-723 | an addition followed by the weight update keeps all cached weights exact |
| Containers.TakeKeeps | src/container.cpp:582-615 | so does a removal |
| Containers.SetItemKeeps | src/container.cpp:535-556 | so does an update in place |
| Containers.ReplaceKeeps | src/container.cpp:558-580 | so does a replacement, which walks up only once |
| Containers.World.UpdateItemWeight | src/container.cpp:149-155 | the recursive walk computes the specified change of all caches |
| Containers.World.GetThingIndex | src/container.cpp:617-627 | the index of an item, or -1 exactly when the container does not list it |
| Containers.World.AddThing | src/container.cpp:503-522 | the item enters at the front, or is dropped silently when the index is beyond the capacity; weights, links and stack sizes stay right |
| Containers.World.InternalAddThing | src/container.cpp:713-723 | the item enters at the front, without a question about room |
| Containers.World.UpdateThing | src/container.cpp:535-556 | the held item changes, an item that is not held does not; weights stay right |
| Containers.World.ReplaceThing | src/container.cpp:558-580 | the new item stands where the old one stood; weights stay right |
| Containers.World.RemoveThing | src/container.cpp:582-615 | part of a stack, or the whole item, leaves; weights stay right |
| Containers.World.CreateItem | src/item.cpp:40-90 | a new item that nothing holds |
| Containers.World.IsWithin | src/game.cpp:1159-1172 | the walk from the destination upwards meets an item exactly when it is in the chain |
| Containers.World.GetTopParent | src/item.cpp:275-292 | the loop returns the container just below the root, as specified recursively |
| Containers.World.IsDepotFull | src/depotchest.cpp:28-55 | the limit test compares the recursive count plus the additional items with the limit |
| Containers.World.WalkUp | src/container.cpp:301-322 | refuses exactly items that the container is inside of, and containers inside an inbox |
| Containers.World.QueryAdd | src/container.cpp:269-344 | answers "no error" if and only if the addition is acceptable, for bags, depot chests and inboxes |
| Containers.World.MailboxQueryAdd | src/inbox.cpp:27-48 | accepts exactly items that can be picked up, and only without limit |
| Containers.World.OwnerQueryAdd | src/container.cpp:338-343 | the top container's answer for a nested one: only the depot limit can refuse |
| Containers.World.ContainerQueryAdd | src/container.cpp:269-344 | the same for an ordinary container |
| Containers.World.QueryMaxCount | src/container.cpp:346-395 | the number of pieces there is room for, counted from free slots and stacks with room |
| Containers.World.SumRoom | src/container.cpp:357-376 | the loop over the stacks sums the room in those that can be merged with |
| Containers.World.QueryRemove | src/container.cpp:397-423 | refuses exactly what is not held, too large a count, and what cannot be moved |
| Containers.World.QueryDestination | src/container.cpp:425-496 | one step of the destination: a locked container keeps the item and the index; index 254 leads to the parent container if there is one; an index below the capacity that holds a container leads into it; every other index stays, with the first stack that has room if items stack by themselves |
| Containers.StepMeans | src/container.cpp:425-496 | a step that stays gives a stack that is listed at the index, a stack with room exactly when the container has one, and no index at an item without it |
| Containers.World.FindStack | src/container.cpp:476-494 | automatic stacking prefers the stack at the index and else the first one that has room, exactly when one exists |
| ItemMoves.MoveForest | src/game.cpp:1061-1253 | a move keeps containment a forest |
| ItemMoves.MoveDeep | src/game.cpp:1061-1253 | how a move changes the recursive sum of every container, for every additive quantity |
| ItemMoves.MoveTotal | src/game.cpp:1061-1253 | how a move changes the total over all items |
| ItemMoves.MoveConserves | src/game.cpp:1061-1253 | the number of pieces of every kind is the same after a move that drops nothing |
| ItemMoves.MoveCarries | src/game.cpp:1061-1253 | the source chain loses and the destination chain gains exactly what was carried |
| ItemMoves.MoveStacks | src/game.cpp:1174-1207 | all stacks hold 1 to 100 pieces after a move |
| ItemMoves.MoveSizes | src/game.cpp:1174-1253 | an upper bound on the number of entries of every container after a move |
| ItemMoves.MoveWithinLimit | src/depotchest.cpp:28-58 | a move the depot chest accepted keeps its recursive count within the limit, also when the destination is nested |
| ItemMoves.QueriesSettle | src/game.cpp:1100-1157 | the answers to the queries together rule out drops, overfull containers and overfull depots |
| ItemMoves.MoveIsSafe | src/game.cpp:1061-1253 | such a move conserves every kind, keeps capacities, depot limits, stacks and the forest, and carries what it should |
| ItemMoves.ResolveDestination | src/game.cpp:1079-1100 | following destinations ends: in the container asked if the first step stays, and otherwise in the one that the step leads to, where the default index is asked again |
| ItemMoves.PlanMove | src/game.cpp:1079-1172 | a plan is found if and only if every question allows the move and the destination stack is not the item itself; the plan can be carried out safely; "no error" without a plan means exactly that stack |
| ItemMoves.AskMove | src/game.cpp:1102-1172 | the questions about the container that was found allow the move if and only if it is accepted, there is room, the item can be removed, and none of it is in the trade |
| ItemMoves.InternalMoveItem | src/game.cpp:1061-1253 | the item goes to the container that the destination steps lead to, in the number that is asked for and fits; when a move goes through; nothing is lost or duplicated; a refused move changes nothing |
| ItemMoves.Transfer | src/game.cpp:1174-1253 | carrying out a plan has exactly the specified result |
| ItemMoves.RunMoves | src/game.cpp:1061-1253 | over every sequence of moves: every kind is conserved and no capacity, stack limit or limit of a placed depot chest is exceeded that was kept before |
| DepotLimits.TopIsRootIff | src/item.cpp:275-292 | the top container is the outermost one if and only if that one is placed or is the container itself |
| DepotLimits.AcceptedWithinLimit | src/depotchest.cpp:28-58 | an accepted addition keeps the limit of a placed chest at any depth, and of any chest it goes straight into |
| DepotLimits.NestedBagAccepts | src/container.cpp:338-343 | an open bag with room accepts an item whatever the chest that nothing holds around it contains |
| DepotLimits.LimitKeptIff | src/container.cpp:338-343 | all accepted additions below a full chest keep its limit if and only if the chest is placed or they go straight into it |
| DepotLimits.UnplacedDepotOverflows | src/container.cpp:338-343 | every full chest that nothing holds, with an open and roomy container anywhere inside it, takes one item too many |
| ItemAdds.WillFitAgain | src/game.cpp:1294-1310 | the remainder of a merged stack fits wherever the whole stack did |
| ItemAdds.AddedInParts | src/game.cpp:1294-1310 | a merge and the addition of the remainder amount to the addition of the whole |
| ItemAdds.PutWithinLimits | src/depotchest.cpp:28-58 | an accepted addition keeps capacities and depot limits |
| ItemAdds.InternalAddItem | src/game.cpp:1262-1343 | accepted if and only if it is allowed where it would go and there is room; an accepted item arrives whole, over however many stacks; a refused one changes nothing |
| ItemAdds.AskRoom | src/game.cpp:1262-1290 | the questions asked before an addition: when they allow it, and what they settle |
| ItemAdds.WillFitFits | src/game.cpp:1294-1310 | what the queries promised room for is accepted |
| ItemAdds.MailboxFits | src/inbox.cpp:27-48 | an inbox takes, without limit, exactly what can be picked up |
| ItemAdds.MergeInto | src/game.cpp:1294-1326 | filling a stack and adding the remainder amounts to the addition |
| ItemAdds.AddRemainder | src/game.cpp:1300-1308 | the remainder becomes an item of its own, and is accepted |
| Money.AddCoins | src/game.cpp:1555-1559 | a stack of coins goes to the holder whole, or to the tile whole if and only if the holder refuses it |
| Money.AddMoney | src/game.cpp:1540-1581 | holder and tile together gain exactly the money; it is handed out in certain stacks, one after the other, and the tile gets exactly those that the holder refuses; stacks of dearer coins stay as they are |
| Money.StacksTotal | src/game.cpp:1546-1580 | the stacks that money is handed out in are worth the money |
| Money.StacksAre | src/game.cpp:1546-1580 | dearest coins first, and no cheaper ones where dearer ones would do: full stacks of crystal coins and one that may be smaller, then at most one stack of less than a hundred platinum and one of less than a hundred gold coins |
| Money.CollectCoins | src/game.cpp:1471-1517 | exactly the coins anywhere in the container, each stack once, cheapest stacks first, and their total worth |
| Money.SortCoins | src/game.cpp:1471-1517 | the loop over what is met on the way: what has worth enters the ordered list |
| Money.Emplace | src/game.cpp:1491-1493 | insertion into the ordered list keeps it ordered and complete |
| Money.ChangeIsSmall | src/game.cpp:1525-1528 | the change is less than one piece of the broken stack, so it cannot join that stack |
| Money.BreakStack | src/game.cpp:1524-1531 | breaking a stack pays exactly the money: the change, less than one piece, is handed out or spilled, then the least number of pieces that is enough leaves; every other stack that is worth no less stays as it is |
| Money.FullOrDear | src/game.cpp:1524-1531 | a stack worth no less is full or of coins no cheaper, so that change cannot join it |
| Money.RemoveCoin | src/game.cpp:1345-1393 | exactly so many pieces leave the stack, or the whole stack its container; the holder is poorer by their worth and all other coins stay |
| Money.PayStack | src/game.cpp:1519-1537 | one round of the loop: the stack leaves whole, or it is broken for exactly the rest |
| Money.Pay | src/game.cpp:1519-1537 | the loop over the ordered coins: the first stacks leave, one after the other, the last one that is needed leaves or is broken for exactly the rest, and every later stack is as before |
| Money.RemoveMoney | src/game.cpp:1461-1538 | succeeds if and only if the holder has enough; then, cheapest stacks first, the stacks before some stack leave, that stack leaves or is broken for exactly the rest, the dearer ones are as before, and holder and tile are poorer by exactly the money; a refusal changes nothing |
| MarketGoods.GetMarketItemList | src/game.cpp:5418-5457 | finds a list if and only if the player can supply the amount; the list suffices and would not without its last item; the 16-bit counter does not wrap |
| MarketGoods.SearchContainer | src/game.cpp:5427-5454 | the inner loop keeps what is seen and what is to come apart, and counts exactly |
| MarketGoods.Counted | src/game.cpp:5450-5453 | the 16-bit addition is exact |
| MarketGoods.SearchIsComplete | src/game.cpp:5456 | when the search finds too little, no selection of the player's items would have sufficed |
| MarketGoods.InternalRemoveItem | src/game.cpp:1345-1393 | part of a stack or the whole item leaves its container |
| MarketGoods.RemoveStacks | src/game.cpp:5138-5148 | exactly the amount is removed, from the owner's lockers only |
| MarketGoods.RemoveAll | src/game.cpp:5149-5153 | the whole list is removed, from the owner's lockers only |
| MarketGoods.RemoveListed | src/game.cpp:5138-5153 | either way exactly the amount is removed, every other ware stays |
| MarketGoods.TakeGoods | src/game.cpp:5133-5153 | succeeds if and only if the player can supply the amount, and then takes exactly the amount |
| MarketGoods.DeliverOne | src/game.cpp:5202-5206 | an inbox accepts an item if and only if it can be picked up |
| MarketGoods.Deliver | src/game.cpp:5198-5227 | the whole amount arrives, or none of it if the item cannot be picked up; nobody else's lockers change |
| Market.Fee | src/game.cpp:5116-5121 | the fee is between 20 and 1000, raised to 20 or lowered to 1000 or kept |
| Market.Exchange.constructor | src/game.cpp:5069-5075 | before the first offer all money is in accounts and all goods in lockers, and no query is waiting |
| Market.Exchange.TakeFrom | src/game.cpp:5132-5153 | exactly the amount leaves the stock of this player, and nothing leaves anybody else's |
| Market.Exchange.DeliverTo | src/game.cpp:5198-5227 | exactly the amount enters the stock of this player, if it can be picked up, and nothing anybody else's |
| Market.Exchange.CreateOffer | src/game.cpp:5069-5172 | goes through if and only if every check passes; then the offer is inserted, the cost leaves the player's account and the goods of an offer to sell leave the player's stock, and nobody else's; money and goods are conserved |
| Market.Exchange.Admit | src/game.cpp:5069-5116 | the checks that do not concern the player's means, and the type that is sold |
| Market.Exchange.GetPlayerOfferCount | src/iomarket.cpp:207-215 | the number of the player's open offers |
| Market.Exchange.CollectMeans | src/game.cpp:5122-5164 | refuses what the player cannot afford or supply, and takes exactly the goods offered, from this player only |
| Market.Exchange.GetOfferByCounter | src/iomarket.cpp:217-246 | an offer that fits date and counter, or none if there is none |
| Market.Exchange.CancelOffer | src/game.cpp:5174-5234 | only the owner's offer is cancelled; the price goes back to the owner's account or the goods to the owner's inbox, and nobody else's change; money is conserved, and goods up to what cannot be picked up |
| Market.Exchange.SellTo | src/game.cpp:5267-5340 | accepting an offer to buy: the goods leave the seller's stock and enter the one of the offer's owner, and the seller gets the price; nobody else's change |
| Market.Exchange.SettleSale | src/game.cpp:5293-5340 | the goods are delivered to the owner of the offer and the price is paid to the seller |
| Market.Exchange.BuyFrom | src/game.cpp:5341-5385 | accepting an offer to sell: the goods enter the stock of the buyer and nobody else's, and the owner of the offer gets the price; no account goes below zero |
| Market.Exchange.AcceptOffer | src/game.cpp:5236-5404 | goes through if and only if every check passes; the offer shrinks by the amount; goods and price go from and to exactly these two players; money is conserved, and goods up to what cannot be picked up |
| Market.Exchange.InsertOffer | src/iomarket.cpp:248-253 | a new row, holding price or goods in escrow |
| Market.Exchange.ShrinkOffer | src/iomarket.cpp:255-265 | the row shrinks, or goes when nothing is left, and gives up what it held |
| Market.Exchange.CheckExpiredOffers | src/iomarket.cpp:191-205 | the query sees exactly the open offers up to the date, as they are then |
| Market.Exchange.ExpireOne | src/iomarket.cpp:123-188 | a row that still exists is removed, and what the query saw is paid into the account of the offer's owner or sent to the owner's inbox, and nobody else's |
| Market.Exchange.ProcessExpiredOffers | src/iomarket.cpp:117-189 | closes exactly the rows of the result; every player is paid and sent exactly what the rows say of their offers that still exist; money and goods never shrink, and stay the same if and only if no amount had changed |
| Market.Exchange.Run | src/game.cpp:5069-5404 | over every run, interleaved with queries and their processing: accounts, escrow and fees stay the same if and only if at every processing the rows seen were unchanged, and likewise the goods of every ware; otherwise they grow |
| Market.Exchange.RunPromptly | src/iomarket.cpp:117-205 | over every run in which each query is processed before anything else happens: money and the goods of every ware stay the same |
| Market.Exchange.Do | src/game.cpp:5069-5404 | one step of a run, and what it may create |
| Market.Exchange.Deal | src/game.cpp:5069-5404 | every step but a query and its processing conserves money and goods |
| Market.Exchange.LateSaleCreatesMoney | src/iomarket.cpp:129-187 | a run of four steps after which there is more money than before |
| Market.MoneyFromNothing | src/iomarket.cpp:129-187 | such a run from a concrete exchange |
| Market.BalanceWithinTotal | src/player.h:1226 | no account exceeds the total, so 64-bit accounts do not wrap if the total fits |
| Trading.TradeFloor.constructor | src/player.h:1298 | everybody starts idle |
| Trading.TradeFloor.IsUnrelated | src/game.cpp:2625-2657 | the loops accept an item if and only if it neither is, nor holds, nor lies in an item on offer |
| Trading.TradeFloor.RequestTrade | src/game.cpp:2559-2670 | a request goes through if and only if it is allowed, the item is unrelated to those on offer and holds less than 100, the player is idle or was asked by this partner, and the partner is idle or trades with the player; then exactly the offered item is registered and one reference taken |
| Trading.TradeFloor.InternalStartTrade | src/game.cpp:2672-2701 | starts if and only if the player is idle or was asked by this partner, and the partner is idle or trades with the player; the states of both traders afterwards |
| Trading.TradeFloor.AcceptTrade | src/game.cpp:2703-2750 | acceptance, refusal by the script, and the start of the transfer, with both references given back; who accepts without an offer of their own |
| Trading.TradeFloor.BeginTransfer | src/game.cpp:2735-2749 | both items leave the register before they change hands; both are there if and only if neither trader accepted without an offer |
| Trading.TradeFloor.FinishTrade | src/game.cpp:2799-2809 | both traders are idle after the transfer |
| Trading.TradeFloor.CloseTrade | src/game.cpp:2893-2935 | ends the trade for both; changes nothing during a transfer |
| Trading.TradeFloor.Run | src/game.cpp:2672-2935 | over every run: partners are symmetric, idle traders have nothing, the register is exact, a transfer is not disturbed, when all are idle every reference was given back exactly once, and a transfer had both items if and only if both traders had made an offer before they accepted |
| Trading.TradeFloor.OneSided | src/game.cpp:2703-2735 | a run from any two idle traders to a transfer with one item |
| Trading.TradeFloor.TwoSided | src/game.cpp:2672-2749 | from any two idle traders and two separate items: offer, counter-offer and two acceptances, in either order, go through and end in a transfer with both items |
| Trading.TradeFloor.ThirdRefused | src/game.cpp:2672-2680 | a request to a player who trades with somebody else is refused and changes nothing |
| Trading.MissingReadIff | src/game.cpp:2754-2761 | a missing item is read if and only if the other trader offers what he wears as a backpack |
| Trading.OfferedOnce | src/game.cpp:2625-2657 | no item is on offer twice |
| PlayerItems.SaveItems | src/iologindata.cpp:561-615 | the breadth-first writer numbers rows from 101; under every id there are the entries with that id, then the contents of the row with that id, for root ids of any value |
| PlayerItems.SaveRoots | src/iologindata.cpp:569-588 | the first loop writes the entries of the list |
| PlayerItems.SaveContents | src/iologindata.cpp:590-613 | the second loop writes the contents of one container, and the work left shrinks |
| PlayerItems.LoadItems | src/iologindata.cpp:907-933 | the map holds every row under its id |
| PlayerItems.Rebuild | src/iologindata.cpp:429-539 | the loop from the highest id down builds, at the front, the list of every parent in row order; an inventory slot keeps one item |
| PlayerItems.RoundTrip | src/iologindata.cpp:429-615 | if no root id is also the id of a row, every root id in range gets back its items (a slot one of them), with the same nesting and order at any depth |
| PlayerItems.RestoredIffInRange | src/iologindata.cpp:435-445 | everything comes back under every id if and only if all root ids are in the accepted range and no slot is used twice, whatever ids the roots have |
| PlayerItems.SecondLost | src/player.cpp:3072-3087 | of two items saved for one slot only one comes back |
| PlayerItems.CollidingId | src/iologindata.cpp:429-445 | a root id that is also the id of a row: the item is loaded into the item of that row if that is a container, and is lost otherwise |
| PlayerItems.LoadedIntoItself | src/iologindata.cpp:429-445 | the first entry under id 101 is loaded into itself |
| PlayerItems.SaveThenLoad | src/iologindata.cpp:429-615 | saving and loading as the program does it restores everything if and only if all root ids are in range and no slot is used twice |
| HouseItems.NumberWritten | src/fileloader.h:145-150 | a number written in so many bytes is read back |
| HouseItems.NextByte | src/fileloader.h:145-150 | every further byte of a number counts 256 times as much as the one before it |
| HouseItems.StringSurvivesIff | src/fileloader.h:152-162 | a string survives if and only if it is at most 65535 bytes long |
| HouseItems.ReadOne | src/item.cpp:373-706 | one attribute written is one attribute read, and the rest is left |
| HouseItems.AttrShape | src/item.cpp:373-706 | the switch over the tags: how many bytes follow, or a string |
| HouseItems.ReadWritten | src/iomapserialize.cpp:131-232 | reading what was written for an item, followed by anything, gives the item and leaves exactly the rest |
| HouseItems.ReadWrittenAll | src/iomapserialize.cpp:113-129 | the same for the contents of a container, written back to front |
| HouseItems.PropWriteStream.WriteString | src/fileloader.h:152-162 | appends length and bytes, or an empty string if it is too long |
| HouseItems.SaveItem | src/iomapserialize.cpp:214-232 | appends exactly the specified bytes of the item and its contents |
| HouseItems.SaveContents | src/iomapserialize.cpp:222-229 | appends the contents back to front |
| HouseItems.SaveAttrs | src/item.cpp:727-840 | appends the attributes |
| HouseItems.UnserializeAttr | src/item.cpp:708-725 | reads attributes as specified, or fails |
| HouseItems.LoadItem | src/iomapserialize.cpp:131-162 | reads one item as specified, or fails |
| HouseItems.LoadContainer | src/iomapserialize.cpp:113-129 | reads the announced number of items, the last one read first in the container |
| OtbFile.AcceptsBalanced | src/fileloader.cpp:53-105 | input is accepted if and only if its markers outside escapes balance: every prefix leaves a node open and the whole none |
| OtbFile.GetProps | src/fileloader.cpp:107-122 | the filter removes exactly the escape bytes |
| OtbFile.UnescapeEscaped | src/fileloader.cpp:107-122 | unescaping undoes escaping |
| OtbFile.RunTree | src/fileloader.cpp:53-105 | a printed tree becomes one child of the innermost open node |
| OtbFile.PlacedMeans | src/fileloader.cpp:107-122 | the parsed nodes have the kinds, properties and children of the tree |
| OtbFile.ParsePrinted | src/fileloader.cpp:53-122 | every tree that is printed is parsed back to itself |
| OtbFile.LoadPrinted | src/fileloader.cpp:30-105 | a printed file loads if and only if it is longer than the minimal size and carries an accepted identifier |
| OtbParser.StackIsLastChildren | src/fileloader.cpp:61-99 | after every prefix of every input the stack is the chain of last children from the root, and no child of the current node is on it |
| OtbParser.GrowthIsSafe | src/fileloader.cpp:71-79 | nothing that moves when the children of the current node grow is on the stack, so the pointers stay valid |
| OtbParser.OpenKeeps | src/fileloader.cpp:66-80 | starting a child keeps the tree well formed, each node on the stack under one parent, and the stack |
| OtbParser.CloseKeeps | src/fileloader.cpp:82-89 | so does ending a node |
| OtbParser.RoundIsStep | src/fileloader.cpp:63-98 | a round on the vectors is a step of the parser on trees |
| OtbParser.ParseTree | src/fileloader.cpp:53-105 | the parser with its stack of pointers computes the specified tree, or fails where the specification does |
| OtbParser.Load | src/fileloader.cpp:30-51 | the size and identifier checks followed by the parser |
| Base32Secret.DecodeSecret | src/iologindata.cpp:50-77 | the bytes a text stands for, or nothing if a character is not in the alphabet |
| Base32Secret.DigitOf | src/iologindata.cpp:59-67 | exactly the letters and the digits from 2 to 7 have a value, each its place in the alphabet |
| Base32Secret.ShiftKeepsPending | src/iologindata.cpp:58 | the wrap-around of the 32-bit buffer does not reach the pending bits |
| Base32Secret.DecodeOne | src/iologindata.cpp:56-74 | one character keeps value, key and fewer than 8 pending bits in step |
| Base32Secret.EncodedValue | src/iologindata.cpp:50-77 | the encoded text stands for the key followed by zero bits |
| Base32Secret.DecodedIsKey | src/iologindata.cpp:50-77 | whatever the decoder may return for an encoded key is that key |
| Base32Secret.EncodeThenDecode | src/iologindata.cpp:50-77 | decoding undoes unpadded Base32 (section 6 of RFC 4648) for keys of any length |
| WalkCache.ShiftIsRebuild | src/creature.cpp:491-572 | except for steps to the south-east or south-west, the shifted cache is right everywhere but at the creature, for any window |
| WalkCache.SouthDiagonalGoesWrong | src/creature.cpp:526-549 | for every step to the south-east or south-west some surroundings make it wrong |
| WalkCache.ShiftIsRebuildIff | src/creature.cpp:491-572 | the shift is right for all surroundings if and only if the step is not one of those |
| WalkCache.SouthDiagonalMiddleRight | src/creature.cpp:526-549 | even then all rows but the first and the last are right |
| WalkCache.SameAnswers | src/creature.cpp:329-358 | a right cache gives the answers of a rebuilt one for every position |
| WalkCache.TruthfulAnswers | src/creature.cpp:329-358 | the answers of a right cache: 1 where the creature is or can walk, 0 where it cannot, 2 outside the window |
| WalkCache.Creature.UpdateTileCache | src/creature.cpp:312-327 | one cell changes if it is in the window |
| WalkCache.Creature.UpdateMapCache | src/creature.cpp:296-310 | the rebuilt cache |
| WalkCache.Creature.GetWalkCache | src/creature.cpp:329-358 | the answer for a position, the creature's own and positions outside included |
| WalkCache.Creature.MoveRows | src/creature.cpp:497-522 | rows shift and the new row is read |
| WalkCache.Creature.MoveColumns | src/creature.cpp:523-568 | columns shift, without one row, and the new column is read |
| WalkCache.Creature.Step | src/creature.cpp:491-580 | after a step the array holds the specified shifted cache; unless the step is a southern diagonal its answers are true and those of a rebuilt one |
| DamageList.CloserMeansHalfMissing | src/condition.cpp:1333-1339 | the comparison of ratios asks whether more than half of the hit is still missing |
| DamageList.TargetLeavesRoom | src/condition.cpp:1329-1331 | every round's target leaves room for the hits still to come |
| DamageList.HitsOf | src/condition.cpp:1332-1339 | the hits of one round: at least one, not more than half a hit short of the target, and less than half a hit beyond it unless there is only one |
| DamageList.RoundDone | src/condition.cpp:1328-1341 | the hits of a round leave those of the stronger rounds on target |
| DamageList.GenerateDamageList | src/condition.cpp:1324-1342 | the list never rises and contains every value from start to 1; for every strength i the hits of strength i and more sum to the target (start + 1 - i) * amount / start, not more than i / 2 short of it and less than i / 2 beyond it unless there is one hit of strength i only; the sum is at least the amount, and exactly the amount if and only if that is at least start (start + 1) / 2 |
| DamageList.ConditionDamage.AddDamage | src/condition.cpp:1051-1081 | adds the hits and their time |
| DamageList.ConditionDamage.Init | src/condition.cpp:1083-1110 | which is the strongest hit; the hits are a damage list of the drawn amount, each after the interval of the condition, and the ticks are the sum of the intervals |
| DecayWheel.DueInFull | src/game.cpp:4461-4479 | the number of ticks until an item decays, in closed form |
| DecayWheel.TimingBounds | src/game.cpp:4444-4486 | from a second on, an item decays less than 875 ms early and never late; below, on the next tick |
| DecayWheel.TimingBoundsMet | src/game.cpp:4444-4486 | these bounds are sharp |
| DecayWheel.VisitOnTime | src/game.cpp:4461-4482 | a visit decays an item, or puts it where it is on time |
| DecayWheel.FirstOnTime | src/game.cpp:4580-4587 | the first bucket puts an item on time |
| DecayWheel.NotOverdue | src/game.cpp:4444-4486 | nothing on the wheel is overdue |
| DecayWheel.InOneBucket | src/game.cpp:4410-4428 | a pending item is in one bucket only, once |
| DecayWheel.Wheel.StartDecay | src/game.cpp:4410-4428 | an item that does not decay yet starts to wait, or decays at once |
| DecayWheel.Wheel.Enlist | src/game.cpp:1336-1340 | putting an item on the waiting list without asking: every item stays in one place if and only if it was not decaying yet or has no time left |
| DecayWheel.Wheel.Cleanup | src/game.cpp:4580-4588 | waiting items are put on the wheel, on time |
| DecayWheel.Wheel.CheckDecay | src/game.cpp:4444-4486 | one tick: exactly the items of the bucket that can decay and whose time is up decay, from the placement they had and on schedule; those that decay on are on the wheel again with their new duration; every other item stays on schedule in one place |
| DecayWheel.Wheel.InspectAll | src/game.cpp:4451-4482 | the loop over a bucket: which of its items decay and which of these wait again, and that the others are followed to where they go |
| DecayWheel.Wheel.Inspect | src/game.cpp:4451-4482 | an item decays if and only if it can and its visit says so |
| DecayWheel.Wheel.Run | src/game.cpp:4410-4588 | over every run, steps that enlist an item included: whatever decays does so within the bounds, and an item on the wheel that is never held up has decayed during the run, from that placement, once its ticks are over |
| DecayWheel.DueHasDecayed | src/game.cpp:4444-4486 | an item that was followed and is due has decayed from its placement since |
| Conditions.UpdateBalances | src/condition.cpp:371-395 | exchanging a condition's effect keeps modifiers and stored effects in balance |
| Conditions.RemoveBalances | src/condition.cpp:524-565 | taking back what is stored keeps them in balance |
| Conditions.Creature.MoveModifiers | src/condition.cpp:468-517 | the loops add, or take back, exactly the stored modifiers |
| Conditions.Creature.StartCondition | src/condition.cpp:1411-1425 | the condition ends after its ticks; what is stored is what is applied |
| Conditions.Creature.TakeEffect | src/condition.cpp:445-494 | a speed that is not given is drawn; for players a percentage overrules a modifier that was set; everything else is stored as it is |
| Conditions.Creature.RemoveAt | src/creature.cpp:1193-1200 | the condition and its effect go together |
| Conditions.Creature.GetCondition | src/creature.cpp:1277-1285 | the condition with a key, or none |
| Conditions.Creature.HasCondition | src/creature.cpp:1308-1325 | whether a kind that is not suppressed is active |
| Conditions.Creature.Refresh | src/condition.cpp:1437-1468 | the new effect replaces the old one if the rules allow, otherwise nothing changes |
| Conditions.Creature.UpdateCondition | src/condition.cpp:308-324 | a new condition may replace one that does not last longer |
| Conditions.Creature.AddCondition | src/creature.cpp:1133-1162 | when a condition is added, refreshed or refused, and the list afterwards: haste ends paralysis and the other way round, unless that is delayed |
| Conditions.Creature.OnAddCondition | src/creature.cpp:1000-1007 | haste ends paralysis and the other way round, unless that is delayed |
| Conditions.Creature.RemoveCondition | src/creature.cpp:1177-1202 | exactly the conditions of the kind go and the others keep their order, unless paralysis is delayed |
| Conditions.Creature.RemoveConditionById | src/creature.cpp:1204-1229 | exactly the conditions of kind and id go and the others keep their order, unless paralysis is delayed |
| Conditions.Creature.ExecuteConditions | src/creature.cpp:1287-1306 | conditions age, and exactly those whose time is up end |
| Conditions.Creature.ExecuteCondition | src/condition.cpp:153-162 | the ticks that are left, and whether the condition goes on |
| Conditions.Creature.Equip | src/player.h:509-517 | equipment changes a modifier and what remains without conditions alike |
| Conditions.Creature.Run | src/creature.cpp:1133-1306 | over every run: modifiers are their values without conditions plus the stored effects, keys are unique, and without conditions nothing remains |
| Connection.Connection.constructor | src/connection.cpp:31-37 | a new connection is open with nothing queued |
| Connection.Connection.Close | src/connection.cpp:72-90 | closes the socket at once or leaves it open until the queue has drained |
| Connection.Connection.CloseAll | src/connection.cpp:57-70 | closes the socket without telling the connection |
| Connection.Connection.InternalSend | src/connection.cpp:284-301 | the head of the queue is handed to the network, or the connection is closed |
| Connection.Connection.Send | src/connection.cpp:269-282 | a message is queued unless disconnected, and written at once only if nothing else is |
| Connection.Connection.OnWriteOperation | src/connection.cpp:314-331 | the queue is never empty here; the next message is written, or a closing socket is closed, or everything is dropped after an error |
| Connection.Connection.Run | src/connection.cpp:57-331 | over every run: one write at a time, of the head of the queue; messages go out in order; a soft close loses nothing |
| Connection.PacketLimit.Packet | src/connection.cpp:160-177 | a client within the limit is never cut off, and no second lets through more than twice the limit and one packet |
| Connection.Burst | src/connection.cpp:165-177 | that many packets do get through |
| DatabaseTasks.AtMostOnce | src/databasetasks.cpp:34-105 | no task is run more often than it was accepted |
| DatabaseTasks.AllRun | src/databasetasks.cpp:86-105 | with an empty queue and nobody busy, every accepted task was run |
| DatabaseTasks.TaskQueue.constructor | src/databasetasks.cpp:28-32 | an empty queue |
| DatabaseTasks.TaskQueue.AddTask | src/databasetasks.cpp:54-67 | accepted only while running; the worker is told about the first task |
| DatabaseTasks.TaskQueue.Notify | src/databasetasks.cpp:64-66 | wakes a sleeping worker, and is lost otherwise |
| DatabaseTasks.TaskQueue.StepWorker | src/databasetasks.cpp:34-52 | one step of the worker, from every place it can be in |
| DatabaseTasks.TaskQueue.BeginFlush | src/databasetasks.cpp:98-105 | a flush begins, after the state is set if it belongs to the shutdown |
| DatabaseTasks.TaskQueue.FlushNext | src/databasetasks.cpp:86-92 | takes the next task, or ends with an empty queue |
| DatabaseTasks.TaskQueue.FlushRun | src/databasetasks.cpp:92-95 | the task taken is run |
| DatabaseTasks.TaskQueue.EndFlush | src/databasetasks.cpp:103-105 | the shutdown notifies the worker |
| DatabaseTasks.TaskQueue.Run | src/databasetasks.cpp:34-105 | over every interleaving: tasks are begun in order, none is run twice, and all are run once a flush after the shutdown has ended and nobody is busy |
| DatabaseTasks.TaskQueue.StaysAsleep | src/databasetasks.cpp:36-41 | a worker that missed the notification stays asleep |
| DatabaseTasks.TaskQueue.EndsAfterNotification | src/databasetasks.cpp:36-105 | once the shutdown has notified, with any number of other notifications pending: a worker that was not about to lock is gone after two steps; one that was ends if and only if another notification comes while it sleeps |
| DatabaseTasks.TaskQueue.EndsAfterShutdown | src/databasetasks.cpp:36-105 | the same for any later moment, wherever the worker is |
| DatabaseTasks.LostWakeUp | src/databasetasks.cpp:36-105 | a schedule in which it misses the notification |

## Left out

- Tiles, players' inventories and the store inbox as places for items; with them the exchange of two items that
  `internalMoveItem` can ask for, and everything that needs positions.
- Containers.World.AddThing: requires what `queryAdd` has established (a stack of 1 to 100 pieces, an item that the
  container is not inside of), because the item store is valid only then.
- Containers.World.InternalAddThing: requires the same.
- Containers.World.ReplaceThing: requires the same.
- Containers.World.UpdateThing: requires a count of 1 to 100, which all callers in the model give.
- Containers.World.RemoveThing: requires what `queryRemove` has established, a held item and no more pieces than it has.
- Containers.World.CreateItem: a container type gets no box of its own; boxes are part of the initial store.
- Containers.World.QueryAdd: the branch for the store inbox is not modelled, because players' inventories are not.
- Containers.World.ContainerQueryAdd: the same branch.
- Containers.World.QueryRemove: the question to a house tile is not modelled, because tiles are not.
- Money.AddMoney: requires less than 4294970000 gold, because beyond that the 32-bit product at src/game.cpp:1547 wraps.
- Money.RemoveMoney: coins in containers only, and the tile's share is a number, because tiles are not modelled; in which
  order stacks of the same worth are taken is left open.
- ItemAdds.InternalAddItem: only for the default index, which is what all modelled callers use, and for items that
  nothing holds yet.
- MarketGoods.InternalRemoveItem: the question whether the item can be removed is not asked, because the market asks
  with a flag that leaves only the items' presence to check.
- MarketGoods.Deliver: what the market creates is one item per stack or piece without contents; a container type gets
  no box of its own.
- Market.Exchange.CreateOffer: the fee before rounding to its bounds is an input, since it is computed in floating
  point; database queries always succeed; all types of one ware must stack or none, as the removal loops assume.
- Market.Exchange.AcceptOffer: an offline player's account and inbox are those of an online one; loading and saving
  them in between is not modelled.
- HouseItems.ReadWritten: custom attributes and unknown item ids are not covered, nor is the branch of `loadItem` that
  puts items on a tile.
- HouseItems.ReadOne: custom attributes (tag 34) are not modelled.
- HouseItems.UnserializeAttr: fails at a custom attribute, which the original reads.
- HouseItems.LoadItem: items on tiles are not modelled.
- HouseItems.SaveAttrs: which attributes an item of some class has is an input.
- OtbParser.ParseTree: memory mapping is not modelled.
- PlayerItems.SaveItems: attributes are opaque, and creating an item of a saved type always succeeds.
- DamageList.GenerateDamageList: the ratios are exact; rounding of single-precision numbers and 32-bit overflow are
  not modelled.
- WalkCache.Creature.Step: moves of one tile on one floor; everything else rebuilds the cache.
- DecayWheel.Wheel.CheckDecay: durations change only by decaying, ticks come every 250 ms, and what an item decays to
  is an input.
- Conditions.Creature.AddCondition: the drawn speed and the percentages of base values are inputs; 32-bit overflow and
  the switch for defence are not modelled.
- Conditions.Creature.Refresh: the refresh rule of damage conditions, which compares total damage, is not modelled.
- Trading.TradeFloor.RequestTrade: distance, sight, ownership and the script's answer are one input.
- Trading.TradeFloor.FinishTrade: whether the two items could change hands is not modelled, because inventories are not.
- Connection.Connection.Send: encryption and the contents of messages.
- Reading packets beyond the limit, protocols, Lua and XML plumbing, spectators, effects, light, beds, rent and bans:
  each either forwards to the functions modelled here or keeps no state of its own between calls.
