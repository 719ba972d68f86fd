# Farming component of InSEEDS, in Dafny

InSEEDS couples a crop and soil simulation on a grid of cells with agents
that decide how the land is managed. This project models the farming
component's core, which consists of three parts.

- **The component** (`component.dfy`, module `FarmingComponent`) creates
  the agents and advances them each tick. It creates one farmer per cell with
  nonzero cropland and forms the farmers' neighbourhoods in harvest-date
  order. It creates the configured number of decision makers (3 by default)
  and lobby groups (2 by default). Each tick it updates the farmers by
  harvest date, then the decision makers by id, then the lobby groups by id.
- **Lobby groups** (`lobby_groups.dfy`, module `LobbyGroups`) gather the
  world's farmers of one agent functional type (AFT). Each group keeps an
  *agreement*. Only members that have a tillage value take part in it: the
  agreement is the count of the more common value, 0 or 1, divided by the
  number of those members. With no members, or no member with a tillage
  value, it is 1. Tillage values 0, none, 1 and 1 thus give 2/3.
- **Decision makers** (`decision_maker.dfy`, module `DecisionMakers`) are
  world-level agents. They read two world averages: the mean crop yield and
  the mean topsoil carbon. Each average is taken over the cells where that
  output is strictly positive, with 0.001 when no cell qualifies.

Support modules:

- `sequences.dfy` (`Sequences`): list filtering and mapping, and removal of
  the first occurrence of an element, as Python's comprehensions and
  `list.remove` do them.
- `sorting.dfy` (`Sorting`): Python's `sorted` with a key. It is defined by
  an insertion sort, `SortByKey`. The module proves that this sort is stable
  and that it is the only stable sort. So the order the model fixes is the
  one any stable sort gives.
- `agents.dfy` (`Agents`): the shared entities. A cell is reduced to the
  three outputs the agents read. A farmer is a value: its AFT, average
  harvest date and optional tillage value. The world is a class holding the
  cells, the farmers and the individuals.

Lobby groups and decision makers are classes whose methods update their
fields. The world they refer to is a reference, so they read its current
collections. The component's loops are methods with loop invariants that
tie each result to a specification function. Lemmas then prove the
promised properties about those functions.

Calls into agent code outside this model become events in a returned trace:
a farmer's constructor, `init_neighbourhood` and `update`. The per-tick
updates of decision makers and lobby groups are part of the model: the
component's `Update` calls them, so after a tick every lobby group holds
its rebuilt membership and agreement. The trace records these calls too,
so the model's claims about call order cover all three passes.

Where the code differs from its description, the model follows the code.

- A decision maker's constructor reads the world's cells unconditionally,
  so it needs a world (`DecisionMaker` takes a non-null `World`).
- `remove_farmer` removes a farmer whatever its AFT (`RemoveFarmer`).
- The component creates its lobby groups without an AFT type. A group
  without an AFT type matches no farmer, so its membership stays empty
  (`UnboundGroupHasNoMembers`).
- The agreement treats a tillage value other than 0 and 1 as a practice
  that counts toward neither majority. A single such member therefore gives
  agreement 0, not 1 (`AgreementOutsideBinary`).

## Model

| member | source | states |
|---|---|---|
| Sequences.Filter | inseeds/components/farming/lobby_groups.py:111 | the kept elements all pass the test and are no more than the input |
| Sequences.Map | inseeds/components/farming/decision_maker.py:56-60 | one result per input, the i-th being the function applied to the i-th input |
| Sequences.MapSnoc | inseeds/components/farming/component.py:25-26 | mapping one more element of a list appends that element's image |
| Sequences.MapAppend | inseeds/components/farming/component.py:21-22 | mapping a list with one element appended appends that element's image |
| Sequences.FilterMembership | inseeds/components/farming/lobby_groups.py:111 | an element is kept exactly when it is in the input and passes the test |
| Sequences.FilterMultiplicity | inseeds/components/farming/lobby_groups.py:111 | a kept element occurs as often as in the input; a rejected one not at all |
| Sequences.FilterIdempotent | inseeds/components/farming/lobby_groups.py:111 | filtering twice with the same test equals filtering once |
| Sequences.FilterNone | inseeds/components/farming/decision_maker.py:61-62 | when no element passes, the filtered list is empty |
| Sequences.RemoveFirst | inseeds/components/farming/lobby_groups.py:74 | removing a present element shortens the list by one; removing an absent one changes nothing |
| Sequences.FirstIndex | inseeds/components/farming/lobby_groups.py:74 | the position of the first occurrence: it holds the element and no earlier position does |
| Sequences.RemoveFirstSplits | inseeds/components/farming/lobby_groups.py:74 | `list.remove` cuts out exactly the first occurrence and keeps the order of the rest |
| Sequences.RemoveFirstMultiset | inseeds/components/farming/lobby_groups.py:74 | `list.remove` takes away one copy of the element and nothing else |
| Sorting.Insert | inseeds/components/farming/component.py:24 | inserting adds exactly one element |
| Sorting.SortByKey | inseeds/components/farming/component.py:24 | sorting keeps the length |
| Sorting.InsertMultiset | inseeds/components/farming/component.py:24 | inserting adds the element to the multiset of the list |
| Sorting.SortByKeyMultiset | inseeds/components/farming/component.py:24 | the sorted list is a permutation of the input |
| Sorting.InsertSorted | inseeds/components/farming/component.py:24 | inserting into a key-sorted list keeps it sorted |
| Sorting.InsertWithKey | inseeds/components/farming/component.py:24 | the inserted element goes before every element with the same key |
| Sorting.SortByKeyIsStable | inseeds/components/farming/component.py:24 | the result is sorted by key, is a permutation, and keeps equal-key elements in input order |
| Sorting.StableSortsAgree | inseeds/components/farming/component.py:61-63 | two sorted permutations with the same equal-key order are equal |
| Sorting.StableSortIsUnique | inseeds/components/farming/component.py:61-63 | every stable sort of a list by a key returns the same list as SortByKey |
| LobbyGroups.MembersOf | inseeds/components/farming/lobby_groups.py:92-97 | the rebuilt membership is no longer than the world's farmer list and every member has the group's AFT |
| LobbyGroups.MembersOfCons | inseeds/components/farming/lobby_groups.py:95-97 | scanning one more farmer at the front adds it to the membership exactly when its AFT matches |
| LobbyGroups.MembersOfExactly | inseeds/components/farming/lobby_groups.py:95-97 | a farmer is a member exactly when it is in the world with the group's AFT, as often as in the world |
| LobbyGroups.MembersOfIdempotent | inseeds/components/farming/lobby_groups.py:92-97 | rebuilding the membership from a rebuilt membership changes nothing |
| LobbyGroups.UnboundGroupHasNoMembers | inseeds/components/farming/lobby_groups.py:95-97 | a group whose AFT type is absent has no members, whatever the world's farmers |
| LobbyGroups.AftGroupsPartition | inseeds/components/farming/lobby_groups.py:95-97 | the traditionalist and pioneer groups together hold each world farmer exactly once |
| LobbyGroups.Practices | inseeds/components/farming/lobby_groups.py:109-111 | there are no more practice values than members |
| LobbyGroups.Count | inseeds/components/farming/lobby_groups.py:116-117 | a count is at most the list's length |
| LobbyGroups.FractionBounds | inseeds/components/farming/lobby_groups.py:119 | a count over a larger total lies in [0, 1]; it is 1 exactly when they are equal, and at least 0.5 when the count is at least half |
| LobbyGroups.Agreement | inseeds/components/farming/lobby_groups.py:104-119 | the agreement lies in [0, 1] |
| LobbyGroups.PracticesMembership | inseeds/components/farming/lobby_groups.py:109-111 | a value is a practice exactly when some member has it as tillage |
| LobbyGroups.NoPracticesIff | inseeds/components/farming/lobby_groups.py:109-113 | there are no practices exactly when no member has a tillage value |
| LobbyGroups.CountOfBinary | inseeds/components/farming/lobby_groups.py:116-117 | with only 0s and 1s, the two counts add up to the number of practices |
| LobbyGroups.CountIsLength | inseeds/components/farming/lobby_groups.py:116-117 | a value's count equals the length exactly when every entry is that value |
| LobbyGroups.PracticesBinary | inseeds/components/farming/lobby_groups.py:108-111 | when members' tillage values are 0 or 1, so are all practices |
| LobbyGroups.AgreementDefault | inseeds/components/farming/lobby_groups.py:105-113 | with no members, or no member with a tillage value, the agreement is 1 |
| LobbyGroups.AgreementTwoOfThree | inseeds/components/farming/lobby_groups.py:115-119 | tillage values 0, 0 and 1 give agreement 2/3 |
| LobbyGroups.AgreementOutsideBinary | inseeds/components/farming/lobby_groups.py:115-119 | a single member with a tillage value other than 0 and 1 gives agreement 0 |
| LobbyGroups.AgreementAtLeastHalf | inseeds/components/farming/lobby_groups.py:115-119 | with tillage values in {0, 1}, the agreement lies in [0.5, 1] |
| LobbyGroups.UnanimousPractices | inseeds/components/farming/lobby_groups.py:109-117 | when the members with a value agree, every practice equals the first one |
| LobbyGroups.UniformPracticesUnanimous | inseeds/components/farming/lobby_groups.py:109-117 | when every practice is one value, the members with a value agree |
| LobbyGroups.AgreementFullIffUnanimous | inseeds/components/farming/lobby_groups.py:104-119 | with tillage values in {0, 1}, the agreement is 1 exactly when the members with a value agree |
| LobbyGroups.LobbyGroup.constructor | inseeds/components/farming/lobby_groups.py:24-57 | sets the world, AFT type and id; takes the world's cells when there is a world, none otherwise; belief 0, no members, agreement 1 |
| LobbyGroups.LobbyGroup.InitWorldAttributes | inseeds/components/farming/lobby_groups.py:59-62 | takes the world's cells when there is a world and otherwise changes nothing |
| LobbyGroups.LobbyGroup.AddFarmer | inseeds/components/farming/lobby_groups.py:64-69 | appends the farmer and answers true exactly when its AFT is the group's; otherwise answers false and changes nothing; members keep the group's AFT |
| LobbyGroups.LobbyGroup.RemoveFarmer | inseeds/components/farming/lobby_groups.py:71-76 | answers true exactly when the farmer is a member, then removes only its first occurrence; otherwise changes nothing; members keep the group's AFT |
| LobbyGroups.LobbyGroup.FarmerCount | inseeds/components/farming/lobby_groups.py:82-84 | the number of members |
| LobbyGroups.LobbyGroup.UpdateFarmers | inseeds/components/farming/lobby_groups.py:86-97 | without a world, nothing changes; otherwise the members become exactly the world's farmers of the group's AFT, in world order |
| LobbyGroups.LobbyGroup.Update | inseeds/components/farming/lobby_groups.py:99-121 | rebuilds the membership as UpdateFarmers does, then sets the agreement to that of the new members; afterwards the group is refreshed: its members and agreement are those its world determines |
| LobbyGroups.UpdateFarmersTwice | inseeds/components/farming/lobby_groups.py:86-97 | rebuilding the membership twice leaves it as one rebuild does |
| DecisionMakers.Least | inseeds/components/farming/decision_maker.py:64 | the smallest entry of a non-empty list |
| DecisionMakers.Greatest | inseeds/components/farming/decision_maker.py:64 | the largest entry of a non-empty list |
| DecisionMakers.SumBounds | inseeds/components/farming/decision_maker.py:64 | a sum lies between the length times any lower bound and the length times any upper bound on the entries |
| DecisionMakers.QuotientBounds | inseeds/components/farming/decision_maker.py:64 | dividing a bounded total by a positive count bounds the quotient |
| DecisionMakers.MeanWithin | inseeds/components/farming/decision_maker.py:64 | a mean lies within any bounds on the entries |
| DecisionMakers.MeanBetweenExtremes | inseeds/components/farming/decision_maker.py:64 | a mean lies between the smallest and the largest entry |
| DecisionMakers.PositiveAverage | inseeds/components/farming/decision_maker.py:56-64 | the mean of the strictly positive values, or 0.001 when there is none, is always strictly positive |
| DecisionMakers.PositiveAverageBetween | inseeds/components/farming/decision_maker.py:56-64 | when some value is positive, the average lies between the smallest and the largest positive value |
| DecisionMakers.PositiveAverageDefault | inseeds/components/farming/decision_maker.py:61-62 | without a positive value, the average is 0.001 |
| DecisionMakers.NonPositiveExcluded | inseeds/components/farming/decision_maker.py:59 | inserting a non-positive value anywhere leaves the average unchanged: it is skipped, not counted as zero |
| DecisionMakers.CellAverageDefault | inseeds/components/farming/decision_maker.py:56-62 | read from cells, the average is 0.001 when no cell's value is positive |
| DecisionMakers.PositiveAverageWitnesses | inseeds/components/farming/decision_maker.py:56-64 | when some value is positive, there are two positive values, one at most the average and one at least it |
| DecisionMakers.CellAverageBetween | inseeds/components/farming/decision_maker.py:56-64 | read from cells, the average lies between the values of two cells whose value is positive |
| DecisionMakers.DecisionMaker.constructor | inseeds/components/farming/decision_maker.py:26-43 | sets the world and id, takes the world's cells, belief 0 |
| DecisionMakers.DecisionMaker.DecisionMakers | inseeds/components/farming/decision_maker.py:45-51 | exactly the world's individuals that are decision makers |
| DecisionMakers.DecisionMaker.WorldAverageCropYield | inseeds/components/farming/decision_maker.py:53-64 | positive; 0.001 when no cell's mean harvest is positive; otherwise between the mean harvests of two cells whose harvest is positive |
| DecisionMakers.DecisionMaker.WorldAverageSoilC | inseeds/components/farming/decision_maker.py:66-77 | positive; 0.001 when no cell's topsoil carbon is positive; otherwise between the topsoil carbon of two cells whose carbon is positive |
| DecisionMakers.DecisionMaker.Update | inseeds/components/farming/decision_maker.py:79-83 | the step changes neither the cells nor the belief |
| FarmingComponent.AgentCount | inseeds/components/farming/component.py:35-39 | an absent setting gives the default; a non-negative setting gives itself; a negative one gives no agents, as `range` does |
| FarmingComponent.CroppedCells | inseeds/components/farming/component.py:17-19 | the cells that get a farmer are no more than the world's cells, and each has nonzero cropland |
| FarmingComponent.CroppedCellsExactly | inseeds/components/farming/component.py:17-19 | a cell gets a farmer exactly when its cropland is nonzero, once per occurrence |
| FarmingComponent.CroppedCellsSnoc | inseeds/components/farming/component.py:17-19 | one more cell adds one more farmer cell exactly when it is cropped |
| FarmingComponent.InitFarmersTrace | inseeds/components/farming/component.py:13-26 | setting up the farmers makes two calls per cropped cell: one construction and one neighbourhood |
| FarmingComponent.InitFarmersOrder | inseeds/components/farming/component.py:13-26 | all farmers are constructed, in cell order, before any neighbourhood is formed; then each farmer forms its neighbourhood once, in a stable harvest-date order |
| FarmingComponent.UpdateTrace | inseeds/components/farming/component.py:57-81 | one tick makes one call per farmer, decision maker and lobby group |
| FarmingComponent.UpdateTraceOffsets | inseeds/components/farming/component.py:57-81 | one tick updates every farmer, decision maker and lobby group once, each pass in its sorted order, at offsets 0, the farmer count and the farmer plus decision-maker count |
| FarmingComponent.UpdateTraceLayout | inseeds/components/farming/component.py:57-81 | the layout UpdateTraceOffsets states, where each pass's order is a stable sort: by harvest date, by decision-maker id and by lobby-group id |
| FarmingComponent.UpdatePassesInOrder | inseeds/components/farming/component.py:57-81 | within a tick, all farmer updates precede all decision-maker updates, which precede all lobby-group updates; every call gets the tick's time |
| FarmingComponent.Component.InitFarmers | inseeds/components/farming/component.py:13-26 | the farmers created are the constructor applied to the cropped cells in cell order; the calls made are those InitFarmersOrder describes |
| FarmingComponent.Component.InitDecisionMakers | inseeds/components/farming/component.py:30-41 | creates the configured number of new decision makers in the component's world, each with the world's cells and belief 0 |
| FarmingComponent.Component.InitLobbyGroups | inseeds/components/farming/component.py:43-55 | creates the configured number of new lobby groups in the component's world, without an AFT type, each set up as its constructor does; each group's world attributes are set right after it is created |
| FarmingComponent.Component.Update | inseeds/components/farming/component.py:57-81 | the calls made are those UpdateTraceLayout and UpdatePassesInOrder describe; it updates the decision makers and lobby groups, so afterwards every lobby group is refreshed, a group without a world keeps its members, and every group keeps its cells and belief |
| FarmingComponent.Component.UpdateLobbyGroups | inseeds/components/farming/component.py:75-81 | updates the lobby groups in order of their ids; afterwards every group is refreshed, a group without a world keeps its members, and every group keeps its cells and belief |
| FarmingComponent.Component.UpdateEach | inseeds/components/farming/component.py:80-81 | updates the given groups one after another; afterwards every one of them is refreshed, even when it occurs twice, and the calls follow the given order; every group keeps its cells and belief |

## Left out

- Floating point: cell outputs, harvest dates and the agreement are real numbers. Rounding in `majority / len(practices)` and `np.mean` is not modelled.
- Cells are reduced to three reals. The cropland fraction stands for `cftfrac.sum("band")`. The mean harvest stands for `harvestc.values.mean()`, computed once per cell where the code computes it twice. The topsoil carbon stands for `soilc_agr_layer.values[0].item()`.
- Identifiers: Python's `id(self)` is replaced by an id supplied to the constructor. The component numbers its agents from a given first id, so ids differ within one call.
- `all_cells` is modelled as a copy of the world's cell list at the time it is taken, not as an alias of the same list.
- The `model` reference that agents and the component store is left out. The only read of it in the core is the lookup of `model.config.coupled_config` when the decision makers and lobby groups are created. That configuration is modelled by `Component.config`.
- Calls to the base classes (`super().__init__`, `super().update`) belong to a framework that is not part of this model.
- The body of a farmer is not part of this model. Farmer construction, `init_neighbourhood` and `update` are events in a trace. Farmers are values, so two farmers with equal attributes are indistinguishable. This affects `farmer in self.farmers` and `list.remove`, which in Python use equality and may fall back to identity.
- `get_farmers` returns the field itself. The model exposes the field `farmers` instead of a separate member.
- `world.decision_makers` and `world.lobby_groups` come from a framework that is not part of this model. `Component.Update` therefore takes them as parameters.
- The agents the `init_*` methods create are returned. `init_farmers` has its registration with the world commented out. `init_decision_makers` and `init_lobby_groups` have no registration at all: each fills a local list and then drops it.
- FarmingComponent.Component.InitDecisionMakers: the class parameter `decision_maker_class` is dropped. The method always constructs a `DecisionMaker`.
- FarmingComponent.Component.InitLobbyGroups: the class parameter `lobby_group_class` is dropped. The method always constructs a `LobbyGroup`.
- FarmingComponent.Component.Update: the farmer pass only records `update` calls and leaves `world.farmers` as it was. The lobby groups' refreshed agreement is therefore that of the farmers' tillage before the tick. In the code, a farmer's `update` may change its tillage before the lobby groups read it.
- Configuration: `getattr(config, name, default)` is modelled as an optional setting per count. Non-integer settings are not modelled.
- DecisionMakers.DecisionMaker.DecisionMakers: tests for being a decision maker by type. The code tests the class name, so it differs for a subclass with another name or an unrelated class named `DecisionMaker`.
- Crop yield and soil carbon per cell are read from in-memory arrays of simulation outputs (`cell.output`). The model replaces each read with a real field of the cell; the arrays themselves are not modelled.
- FarmingComponent.Component.InitFarmers: the farmer constructor is a function parameter from a cell to a farmer, so it is treated as pure. Equal cells give equal farmers, and constructing a farmer has no other effect on the model's state.
