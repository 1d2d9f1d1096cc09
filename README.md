# Plugin graph runtime, modelled in Dafny

This project models the `Plugin` base class of the `local_llm` pipeline
runtime (`packages/llm/local_llm/plugin.py`). Plugins form a directed graph.
Each plugin holds an ordered list of downstream plugins (`outputs`, where a
position is a "channel") and, when built with `threaded=True`, a FIFO queue.
The model covers:

- `add`, which connects two plugins in either direction;
- `find` (and its alias `__getitem__`), the depth-first search over output edges;
- `input` (and its alias `__call__`), which enqueues an item;
- `output`, which sends a value to one channel or to every output;
- `update`, which drains the queue. For each item it outputs the `process`
  result and then, when `relay` is set, the item itself.

The whole graph is one object, `Plugins.Graph`. Plugin `i`'s fields sit at
position `i` of its lists `outputs`, `queues`, `relay`, `threaded`, `kind`
(the plugin's class) and `process` (what the plugin's `process` returns for
an item). One plugin changing another, as `add(p, 'input')` and `output` do,
is then an update of the graph with no aliasing. Python values that may be
`None` are `Option<T>`. Raised exceptions are returned as values: `Result`
for `add`, `Option<Error>` for the others. The state at the moment of the
exception is kept.

Modules:

- `Nodes` holds node ids and edge-range predicates.
- `GraphSearch` holds `find` as pure functions over the `outputs` and `kind`
  lists. It is proved sound, complete, and equal to the first match in
  depth-first pre-order.
- `Delivery` holds functions giving the queues after `input`, `output` and
  `update`. It proves what the broadcast and the drain deliver, and when
  they raise.
- `Plugins` holds the class `Graph`. Its methods modify the graph in place
  and are proved equal to the `Delivery` functions.

Behaviour of the code that the model keeps:

- A plugin built with `threaded=False` never gets a `queue` attribute
  (plugin.py:32-33). Its `input` calls `update`, and `update` raises
  AttributeError at `self.queue.empty()`. So the item is never processed, even
  though the docstring of `input` says "process it now". The model returns
  AttributeError and leaves every queue unchanged.
- `output`'s broadcast loop calls `input` on each output in turn. A
  non-threaded output raises part-way, after the earlier outputs have
  already received the value (`Delivery.BroadcastDelivers`).
- `add` wraps a callable in a new Callback plugin before it checks the mode.
  So `add(f, 'bogus')` leaves a new, unconnected plugin behind and raises
  ValueError. No edge is added.

## Model

| member | source | states |
|---|---|---|
| `Plugins.Graph.NewPlugin` | packages/llm/local_llm/plugin.py:24-36 | a new plugin gets the next id, no outputs, an empty queue, and the given relay/threaded flags, class and process; all other plugins are unchanged |
| `Plugins.Graph.Add` | packages/llm/local_llm/plugin.py:53-80 | TypeError for a target that is neither a plugin nor callable, with nothing changed. A callable is first wrapped in a new Callback plugin (relay off, threaded). Mode 'output' appends exactly the target to this plugin's outputs; mode 'input' appends this plugin to the target's outputs; both return this plugin. Any other mode raises ValueError and adds no edge. In every case, existing outputs lists only grow at the end |
| `Plugins.Graph.Input` | packages/llm/local_llm/plugin.py:105-120 | a threaded plugin appends the item to the end of its own queue and to no other; a non-threaded plugin raises AttributeError with every queue unchanged |
| `Plugins.Graph.Output` | packages/llm/local_llm/plugin.py:122-133 | the queues and exception after the call are exactly those of `Delivery.AfterOutput` on the plugin's outputs |
| `Plugins.Graph.Update` | packages/llm/local_llm/plugin.py:135-143 | the result equals `Delivery.AfterUpdate`. When the plugin and all its outputs are threaded, nothing raises, its queue ends empty, and each output receives, in FIFO order, every item's non-None process result followed by the relayed item (only when relay is set), once per listing. Plugins that are not outputs keep their queues |
| `Delivery.AfterInput` | packages/llm/local_llm/plugin.py:111-120 | input touches no queue other than the target's |
| `Delivery.AfterBroadcast` | packages/llm/local_llm/plugin.py:131-133 | a broadcast changes only the queues of the listed targets |
| `Delivery.AfterOutput` | packages/llm/local_llm/plugin.py:122-133 | a None value delivers nothing, whatever the channel. A channel in range appends the value to that output's queue alone (AttributeError if that output is not threaded). A channel past the end raises IndexError with nothing changed. Only plugins among the outputs are touched |
| `Delivery.AfterItem` | packages/llm/local_llm/plugin.py:140-143 | one loop iteration touches only the plugin's outputs |
| `Delivery.AfterDrain` | packages/llm/local_llm/plugin.py:139-143 | the drain loop touches only the draining plugin and its outputs |
| `Delivery.AfterUpdate` | packages/llm/local_llm/plugin.py:135-143 | update touches only the plugin itself and its outputs |
| `Plugins.Graph.Broadcast` | packages/llm/local_llm/plugin.py:131-133 | the loop over outputs leaves exactly the queues and exception of `Delivery.AfterBroadcast` |
| `Plugins.Graph.Drain` | packages/llm/local_llm/plugin.py:139-143 | the `while not self.queue.empty()` loop leaves exactly the queues and exception of `Delivery.AfterDrain` |
| `Plugins.Graph.RunItem` | packages/llm/local_llm/plugin.py:140-143 | one pass of the update loop leaves exactly the queues and exception of `Delivery.AfterItem` |
| `Delivery.Count` | packages/llm/local_llm/plugin.py:132-133 | how often a plugin is listed among the outputs: at most the list's length, and zero exactly when it is not listed |
| `Delivery.CountIsMultiplicity` | packages/llm/local_llm/plugin.py:132-133 | that count is the plugin's multiplicity in the outputs list |
| `Delivery.BroadcastStep` | packages/llm/local_llm/plugin.py:132-133 | one more pass of the loop over outputs calls `input` on the next output, unless an exception already ended the loop |
| `Delivery.BroadcastAll` | packages/llm/local_llm/plugin.py:131-133 | with all outputs threaded, the loop raises nothing and each plugin receives v once per listing |
| `Delivery.BroadcastDelivers` | packages/llm/local_llm/plugin.py:131-133 | say the first k outputs are threaded and output k (if any) is not. Then broadcasting v raises AttributeError exactly when k is short of the list. Every plugin gets v once for each time it is listed among the first k outputs, so an output listed j times gets v j times |
| `Delivery.OutputToAll` | packages/llm/local_llm/plugin.py:122-133 | output on channel -1 with all outputs threaded raises nothing. Each plugin's queue gains the value once per listing among the outputs, and nothing if the value is None |
| `Delivery.BroadcastFails` | packages/llm/local_llm/plugin.py:116-120 | a broadcast raises if and only if some listed output is not threaded, and the exception is AttributeError |
| `Delivery.BroadcastStops` | packages/llm/local_llm/plugin.py:131-133 | once the loop over outputs has raised, the later outputs receive nothing |
| `Delivery.StutterAppend` | packages/llm/local_llm/plugin.py:139-143 | what an output receives for two batches of emissions is what it receives for the first followed by the second |
| `Delivery.StutterOne` | packages/llm/local_llm/plugin.py:132-133 | an output listed once receives exactly the emitted sequence |
| `Delivery.ItemDelivers` | packages/llm/local_llm/plugin.py:140-143 | for one dequeued item with all outputs threaded, each output receives the process result (if not None) and then the relayed item (if relay is set and it is not None), once per listing |
| `Delivery.ItemFailsIff` | packages/llm/local_llm/plugin.py:140-143 | one item's processing raises exactly when it emits something and some output is not threaded; the exception is AttributeError |
| `Delivery.DrainEmpties` | packages/llm/local_llm/plugin.py:139-143 | with all outputs threaded, the drain raises nothing and leaves the queue empty |
| `Delivery.DrainFirst` | packages/llm/local_llm/plugin.py:139-143 | with all outputs threaded, the first pass raises nothing, removes exactly the front item, and the rest of the drain goes on from there; what is emitted is that item's emissions followed by the rest's |
| `Delivery.DrainAll` | packages/llm/local_llm/plugin.py:139-143 | with all outputs threaded, each other plugin receives, in FIFO order, every item's emissions, each value repeated once per listing |
| `Delivery.StutterExtend` | packages/llm/local_llm/plugin.py:139-143 | receiving one batch of emissions and then the next is receiving both batches in order |
| `Delivery.DrainDelivers` | packages/llm/local_llm/plugin.py:139-143 | draining with all outputs threaded raises nothing and empties the queue. Each other plugin receives, in FIFO order, every item's process result before that item's relay, repeated per listing; an output listed once receives exactly that sequence |
| `Delivery.DrainFailsIff` | packages/llm/local_llm/plugin.py:135-143 | the drain raises exactly when it has something to emit and some output is not threaded; the exception is then AttributeError |
| `GraphSearch.Find` | packages/llm/local_llm/plugin.py:82-103 | returns the start plugin when it passes the type test; any plugin it returns passes the test |
| `GraphSearch.FindAmong` | packages/llm/local_llm/plugin.py:90-97 | the loop over outputs returns only plugins that pass the test |
| `GraphSearch.FindPath` | packages/llm/local_llm/plugin.py:82-97 | the plugin returned lies at the end of a path of output edges from the start |
| `GraphSearch.FindAmongPath` | packages/llm/local_llm/plugin.py:90-97 | the plugin the loop over outputs returns lies at the end of a path of output edges from the start |
| `GraphSearch.FindSound` | packages/llm/local_llm/plugin.py:82-97 | any non-None result passes the type test and is reachable from the start through output edges |
| `GraphSearch.FindAmongReaches` | packages/llm/local_llm/plugin.py:90-95 | a hit under a later output is found from any earlier position of the loop over outputs |
| `GraphSearch.FindComplete` | packages/llm/local_llm/plugin.py:82-97 | if any plugin reachable from the start passes the test, find does not return None |
| `GraphSearch.FindNoneIff` | packages/llm/local_llm/plugin.py:82-97 | find returns None if and only if no plugin reachable through output edges passes the test |
| `GraphSearch.PreOrder` | packages/llm/local_llm/plugin.py:87-95 | the depth-first pre-order listing of the graph below a plugin starts at that plugin and names only existing plugins |
| `GraphSearch.FirstMatch` | packages/llm/local_llm/plugin.py:87-95 | None exactly when no listed plugin passes the test; otherwise a listed plugin that passes it |
| `GraphSearch.FirstMatchAppend` | packages/llm/local_llm/plugin.py:90-95 | the first match in a concatenation comes from the first part when it has one |
| `GraphSearch.FindIsPreOrderFirst` | packages/llm/local_llm/plugin.py:82-97 | find returns exactly the first plugin in depth-first pre-order (self, then each output's subtree in list order) that passes the test |
| `GraphSearch.FindAmongIsPreOrderFirst` | packages/llm/local_llm/plugin.py:90-97 | the loop over outputs returns the first match in the outputs' pre-order subtrees, taken in list order |

## Left out

- Threads: the `threading.Thread`/`threading.Event` set-up (plugin.py:33-36) and the endless wait/clear/update loop `_run` (plugin.py:145-152) are not modelled. `Plugins.Graph.Update` is one call of `update`, run alone: the model fixes one sequential schedule in which no other plugin's thread runs meanwhile. With the threads running, other plugins take items from their own queues and add their emissions to shared targets, interleaved with this plugin's; through a cycle n→m→n, m's thread can even refill n's queue while n drains, and n's loop then processes those items in the same call. None of that is modelled. What the model does promise is that what n's drain sends reaches each target in n's FIFO order.
- `queue.Queue` thread-safety: only its FIFO put/get/empty behaviour is modelled, as a sequence.
- `process`: each plugin's `process` is a total function from item to result (`Graph.process`). The base class raising NotImplementedError (plugin.py:51) is not modelled. Neither is a `process` that calls `self.output` itself, as the chat query stage does for each generated token, nor the `sender` keyword argument.
- The `Callback` class (plugin.py:70-71) is not part of this model. A wrapped callable becomes a new plugin of class "Callback". It gets Plugin's default flags (relay off, threaded), and its `process` is the callable.
- `isinstance(x, type)` is an abstract test on the plugin's class name (`isa`). Class hierarchies are not modelled.
- GraphSearch.Find: requires the whole output graph to be acyclic (a rank that strictly decreases along every edge), not only the part reachable from the start. On a cycle reachable from the start the source still returns when it meets a match before coming back round, and a cycle it cannot reach does not matter to it. The model does not cover those cases.
- Plugins.Graph.Update: requires that a plugin whose queue holds items is not its own output. With such a self-edge every value the loop emits goes back into the queue it drains. The source's loop then ends once the chain of `process` results reaches None (with relay off), and never ends while relayed items keep coming back. Whether it ends depends on `process`, not on the queue, and the model does not cover that case. A non-threaded plugin with a self-edge (AttributeError at once) and a threaded one with an empty queue (returns at once) are covered.
- Plugins.Graph.Drain: requires that the plugin is not its own output while its queue holds items, for the reason given for `Plugins.Graph.Update`. A self-edge with an empty queue is covered.
- Delivery.AfterDrain: requires (through `DrainReady`) that the plugin is not its own output while its queue holds items, for the reason given for `Plugins.Graph.Update`. A self-edge with an empty queue is covered.
- Delivery.AfterUpdate: requires the same of a threaded plugin only. A non-threaded plugin raises AttributeError at once, so its self-edges are covered.
- After an exception, the model stops where the source stops and keeps the state reached so far. For a threaded plugin, such an exception would end its dispatch thread. That is not modelled.
- `packages/llm/local_llm/plugins/chat_query.py` (model loading, chat history, token generation) and logging are not part of this model.
