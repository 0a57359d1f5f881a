# Engine runtime core: event bus, actor collection, status flags

A Dafny model of three pieces of the GDLibrary game-engine runtime:

- **`Events`** (`event_dispatcher.dfy`): the `EventDispatcher` event bus. It keeps a
  stack of pending `EventData` values and a de-duplication set. `Publish` pushes an
  event unless an equal one is already pending. `Update`, run once per frame,
  pops events off the stack, routes each by category, and then clears both
  containers. Camera events go to the `CameraChanged` channel and MainMenu events
  to `MenuChanged`; every other category is dropped. Delivery to subscribers is
  returned as a trace of `Dispatch(channel, event)` values, and each channel's
  subscriber list is reduced to one flag: does it have a subscriber or not.
- **`Objects`** (`object_manager.dfy`): the `ObjectManager` actor collection, an
  ordered draw list with `Add`, `Remove(predicate)`, `RemoveAll(predicate)` and
  the draw pass. The draw pass returns the actors it submits to the renderer.
- **`StatusType`** (`status_type.dfy`): the six status bit-flags and how they are
  OR-combined and AND-tested.

`Wrappers` (`wrappers.dfy`) holds the `Option` type.

### The drain quirk

The drain loop in `EventDispatcher.Update` counts an index up from zero and
pops and processes the top of the stack while the index is below the current
stack count. The index climbs while the stack count falls. With `n` events pending, only the
newest `(n + 1) / 2` are processed, newest first. The oldest `n / 2` are then
discarded by `stack.Clear()`. The model reproduces this behaviour: `DrainFrom`
follows the loop step by step, and the lemmas `DrainFromShape`,
`DrainedNewestFirst` and `DrainedLosesOldest` state its consequences.
`StartGameLosesPause` shows the consequence for the game's own start-up:
`Main.cs` publishes a main-menu pause and then a camera set-active event. Only
the camera event is delivered; the pause is lost. The evident intent of the
loop is to dispatch every pending event, last in first out. The code does not
do that, and this model follows the code. `ThreeCameraEventsNewestTwo` shows
the effect on three pending camera events: the newest two are delivered,
newest first, and the oldest is never delivered.

The `Drawn` flag exists so that the draw pass can skip actors whose flag is
cleared, as the comment at `StatusType.cs:2-3` describes. `ObjectManager.Draw` never reads status flags; it only tests whether
a model object's model is non-null. The model follows the code, and
`DrawIgnoresStatus` states the independence.

## Model

| member | source | states |
|---|---|---|
| `Events.Route` | GDLibrary/GDLibrary/Events/Base/EventDispatcher.cs:59-73 | Camera routes to the camera channel, MainMenu to the menu channel, and any other category to no channel, each in both directions |
| `Events.Subscribed` | GDLibrary/GDLibrary/Events/Base/EventDispatcher.cs:79-87 | each channel is tested against its own flag: the camera channel has a subscriber exactly when the camera flag is set, and the menu channel exactly when the menu flag is set |
| `Events.Process` | GDLibrary/GDLibrary/Events/Base/EventDispatcher.cs:55-89 | processing one event delivers at most one dispatch, carrying that event on the channel its category routes to; a dispatch happens exactly when the category is routed and that channel has a subscriber, that is, for a Camera event with the camera channel subscribed or a MainMenu event with the menu channel subscribed |
| `Events.EventDispatcher.constructor` | GDLibrary/GDLibrary/Events/Base/EventDispatcher.cs:29-34 | a new dispatcher has an empty stack, an empty de-duplication set, and no subscribers |
| `Events.EventDispatcher.Publish` | GDLibrary/GDLibrary/Events/Base/EventDispatcher.cs:35-43 | an event already in the set leaves stack and set unchanged; a new event is pushed on top and added to the set; the stack/set invariant is kept |
| `Events.EventDispatcher.Update` | GDLibrary/GDLibrary/Events/Base/EventDispatcher.cs:44-53 | the trace is the deliveries of exactly the events the quirky drain loop pops, in pop order; afterwards stack and set are both empty |
| `Events.Deliveries` | GDLibrary/GDLibrary/Events/Base/EventDispatcher.cs:46-47 | processing a sequence of events makes at most one delivery per event |
| `Events.AfterPublish` | GDLibrary/GDLibrary/Events/Base/EventDispatcher.cs:35-43 | after publishing, the event is in the de-duplication set, which only grows; the old stack is a prefix of the new one, which is at most one longer; an event already in the set changes nothing |
| `Events.AfterPublishAll` | GDLibrary/GDLibrary/Events/Base/EventDispatcher.cs:35-43 | publishing a sequence only pushes on top, at most one entry per event, and leaves every published event in the set |
| `Events.PublishKeepsConsistent` | GDLibrary/GDLibrary/Events/Base/EventDispatcher.cs:35-43 | publishing keeps the stack free of duplicates and the set equal to the stacked events |
| `Events.PublishPushesOnce` | GDLibrary/GDLibrary/Events/Base/EventDispatcher.cs:38-42 | after publishing, the event is pending; if it was already pending nothing changes; otherwise the stack grows by one on top and the older entries are untouched |
| `Events.PublishIdempotent` | GDLibrary/GDLibrary/Events/Base/EventDispatcher.cs:37-42 | publishing the same event twice has the same effect as publishing it once |
| `Events.PublishAllKeepsConsistent` | GDLibrary/GDLibrary/Events/Base/EventDispatcher.cs:35-43 | publishing a sequence keeps the invariant and only pushes on top; afterwards the pending events are exactly the earlier pending ones plus the published ones |
| `Events.AcceptedAfterDrain` | GDLibrary/GDLibrary/Events/Base/EventDispatcher.cs:49-50 | the emptied containers are consistent, and any event published into them is accepted |
| `Events.DrainFrom` | GDLibrary/GDLibrary/Events/Base/EventDispatcher.cs:46-47 | the loop processes at least one event exactly when the index starts below the stack count |
| `Events.Drained` | GDLibrary/GDLibrary/Events/Base/EventDispatcher.cs:44-49 | a drain of n pending events processes (n + 1) / 2 of them, and the first one processed is the most recently published |
| `Events.DrainFromShape` | GDLibrary/GDLibrary/Events/Base/EventDispatcher.cs:46-47 | from a stack of height h with the loop index at i < h, the loop processes (h - i + 1) / 2 events, the k-th being the k-th from the top; with i >= h it processes none |
| `Events.DrainedNewestFirst` | GDLibrary/GDLibrary/Events/Base/EventDispatcher.cs:46-47 | a drain of n pending events processes (n + 1) / 2 of them, the most recently published first |
| `Events.DrainedLosesOldest` | GDLibrary/GDLibrary/Events/Base/EventDispatcher.cs:46-49 | each of the oldest n / 2 pending events is never processed |
| `Events.DrainedDistinct` | GDLibrary/GDLibrary/Events/Base/EventDispatcher.cs:38-47 | the stack holds no event twice, so one drain processes no event twice |
| `Events.DeliveriesDistinct` | GDLibrary/GDLibrary/Events/Base/EventDispatcher.cs:46-89 | events that are pairwise distinct give deliveries that are pairwise distinct |
| `Events.DeliveriesRouteByCategory` | GDLibrary/GDLibrary/Events/Base/EventDispatcher.cs:59-73 | every delivery carries one of the processed events, goes to a subscribed channel, and goes to the camera channel exactly for Camera events and to the menu channel exactly for MainMenu events |
| `Events.DeliveriesComplete` | GDLibrary/GDLibrary/Events/Base/EventDispatcher.cs:59-89 | every processed event whose category is routed to a subscribed channel is delivered there |
| `Events.UnsubscribedChannelSilent` | GDLibrary/GDLibrary/Events/Base/EventDispatcher.cs:76-88 | a channel without a subscriber receives nothing, whatever the other channel's state: with the camera channel unsubscribed every delivery is on the menu channel, and the other way round |
| `Events.DeliveriesAppend` | GDLibrary/GDLibrary/Events/Base/EventDispatcher.cs:46-47 | processing two runs of events one after the other delivers the first run's dispatches and then the second's |
| `Events.DeliveriesInOrder` | GDLibrary/GDLibrary/Events/Base/EventDispatcher.cs:46-47 | when every processed event is routed to a subscribed channel, there is one delivery per event and the k-th delivery carries the k-th processed event, so handlers receive events in processing order |
| `Events.ThreeEventsPending` | GDLibrary/GDLibrary/Events/Base/EventDispatcher.cs:35-43 | three distinct events published into an empty frame are all pending, the newest on top |
| `Events.ThreeCameraEventsNewestTwo` | GDLibrary/GDLibrary/Events/Base/EventDispatcher.cs:44-49 | with three camera events pending and the camera channel subscribed, the drain delivers the newest, then the middle one, and never the oldest |
| `Events.NoSubscribersNoDeliveries` | GDLibrary/GDLibrary/Events/Base/EventDispatcher.cs:76-89 | with no subscribers, processing any events delivers nothing and does not fail |
| `Events.StartGameLosesPause` | GDApp/GDApp/App/Main.cs:904-911 | after the start-up publishes (menu pause, then camera set-active), both are pending, and the drain delivers only the camera event |
| `Events.StartGameFrame` | GDApp/GDApp/App/Main.cs:904-911 | run on a dispatcher object, with the pause published a second time, the drain delivers only the camera event; the repeated pause is ignored, and the pause is accepted again after the drain |
| `Objects.FirstMatch` | GDLibrary/GDLibrary/Managers/Object/ObjectManager.cs:42 | the index found satisfies the predicate and no earlier element does; no index means that no element satisfies it |
| `Objects.RemoveFirst` | GDLibrary/GDLibrary/Managers/Object/ObjectManager.cs:40-47 | the list keeps its length exactly when no element matches, and otherwise loses one element |
| `Objects.Filter` | GDLibrary/GDLibrary/Managers/Object/ObjectManager.cs:49-52 | filtering never lengthens the list |
| `Objects.Count` | GDLibrary/GDLibrary/Managers/Object/ObjectManager.cs:49-52 | the number of matches is at most the length of the list |
| `Objects.ObjectManager.constructor` | GDLibrary/GDLibrary/Managers/Object/ObjectManager.cs:28-33 | a new manager has an empty draw list |
| `Objects.ObjectManager.Add` | GDLibrary/GDLibrary/Managers/Object/ObjectManager.cs:35-38 | the actor is appended at the end, and the earlier actors are unchanged |
| `Objects.ObjectManager.Remove` | GDLibrary/GDLibrary/Managers/Object/ObjectManager.cs:40-47 | returns true exactly when some actor matches; the new list is the old one without its first match |
| `Objects.ObjectManager.RemoveAll` | GDLibrary/GDLibrary/Managers/Object/ObjectManager.cs:49-52 | the new list is the old one filtered to the non-matching actors; the count returned is old length minus new length |
| `Objects.ObjectManager.Draw` | GDLibrary/GDLibrary/Managers/Object/ObjectManager.cs:54-66 | the actors submitted are the actors with a non-null model, filtered from the list in list order |
| `Objects.FilterMembers` | GDLibrary/GDLibrary/Managers/Object/ObjectManager.cs:49-52 | an element survives filtering exactly when it was in the list and satisfies the predicate |
| `Objects.FilterAppend` | GDLibrary/GDLibrary/Managers/Object/ObjectManager.cs:49-52 | filtering distributes over concatenation, so survivors keep their relative order |
| `Objects.FilterCount` | GDLibrary/GDLibrary/Managers/Object/ObjectManager.cs:49-52 | removing the matches shortens the list by exactly the number of matches; with no match the list is unchanged |
| `Objects.RemoveAllSpec` | GDLibrary/GDLibrary/Managers/Object/ObjectManager.cs:49-52 | after RemoveAll no actor satisfies the predicate, every non-matching actor survives, the count is the number of matches, and with no match the list is unchanged |
| `Objects.RemoveFirstSpec` | GDLibrary/GDLibrary/Managers/Object/ObjectManager.cs:40-47 | with no match the list is unchanged; otherwise exactly the first match is removed and the others keep their order; the length drops by at most one; no actor is gained |
| `Objects.DrawSelection` | GDLibrary/GDLibrary/Managers/Object/ObjectManager.cs:54-66 | an actor is submitted exactly when it is in the list and has a model; what is submitted from any prefix of the list is a prefix of the whole submission |
| `Objects.DrawIgnoresStatus` | GDLibrary/GDLibrary/Managers/Object/ObjectManager.cs:54-66 | two lists that differ only in status flags get the same actors submitted, in the same order |
| `StatusType.Bit` | GDLibrary/GDLibrary/Enums/StatusType.cs:16-23 | each flag has a bit position below 6, so every declared value lies in the low six bits of the status word |
| `StatusType.Value` | GDLibrary/GDLibrary/Enums/StatusType.cs:16-23 | each member's value is a power of two, namely 1 shifted left by its bit position (Drawn=1, Updated=2, Play=4, Pause=8, Stop=16, Reset=32) |
| `StatusType.ValuesDistinct` | GDLibrary/GDLibrary/Enums/StatusType.cs:16-23 | distinct members have distinct values and distinct bit positions |
| `StatusType.FlagsDisjoint` | GDLibrary/GDLibrary/Enums/StatusType.cs:16-23 | any two distinct members share no bit: their AND is 0 |
| `StatusType.With` | GDLibrary/GDLibrary/Enums/StatusType.cs:25-28 | OR-ing a flag into a status word sets that flag |
| `StatusType.Has` | GDLibrary/GDLibrary/Enums/StatusType.cs:16-28 | the AND test for a flag holds exactly when the bit at that flag's position is 1 |
| `StatusType.WithKeepsOthers` | GDLibrary/GDLibrary/Enums/StatusType.cs:16-28 | OR-ing one flag in leaves the test for every other flag unchanged |
| `StatusType.Combine` | GDLibrary/GDLibrary/Enums/StatusType.cs:25-28 | the OR of two flags has both flags set |
| `StatusType.CombineExactly` | GDLibrary/GDLibrary/Enums/StatusType.cs:25-28 | the OR of two flags has exactly those two flags set |
| `StatusType.UpdatedAndDrawn` | GDLibrary/GDLibrary/Enums/StatusType.cs:25-28 | Updated OR Drawn is 3 and holds both flags, each tested independently, and no other flag |
| `StatusType.DrawnButNotUpdated` | GDLibrary/GDLibrary/Enums/StatusType.cs:2-3 | a status of Drawn alone tests as drawn and not updated |
| `StatusType.MediaLeavesPassesAlone` | GDLibrary/GDLibrary/Enums/StatusType.cs:19-23 | setting Play, Pause, Stop or Reset never changes the Drawn or Updated bits |

## Left out

- Subscriber callbacks and delegate multicast are left out. A channel's handler list is reduced to the flags `cameraSubscribed` and `menuSubscribed`, which clients assign directly. A delivery is a trace entry instead of a call.
- Publishing from inside a handler during `Update` is not modelled. In the source it would push onto the stack being drained while the de-duplication set is not yet cleared.
- The stack and set are static fields shared by every dispatcher instance in the source. The model has a single dispatcher instance that owns them.
- `EventDataEqualityComparer` is not part of this model. Event equality is structural equality on (category, action, parameters).
- Not every event category is named. `EventCategoryType` is not part of this model, and every category other than Camera and MainMenu is `Other`. Parameters are reduced to text and integer values.
- A null event cannot be expressed, so the model does not cover publishing one.
- Events.EventDispatcher.constructor: the initial capacity is a `nat`, so the source's `ArgumentOutOfRangeException` for a negative capacity cannot be expressed. Otherwise the capacity only sizes the stack, so it is ignored. The game passes a positive constant.
- Objects.ObjectManager.constructor: the initial capacity is a `nat`, so the source's `ArgumentOutOfRangeException` for a negative capacity cannot be expressed. Otherwise the capacity only sizes the draw list, so it is ignored. The game passes a positive constant.
- `ObjectManager.Draw` requires every actor to be a model object. In the source, `actor as ModelObject` yields null for any other actor, and `DrawObject` then dereferences it.
- The body of `DrawObject` is left out: effect binding, camera view and projection, bone transforms and mesh drawing. The model records only which actors are submitted, in what order. The `CameraManager` reference is therefore not kept.
- `IActor`, `ModelObject`, controllers, cameras and transforms are not part of this model. An actor is reduced to an id, a status word and whether it has a model.
- `Remove` locates the actor with `List.Find` and removes it with `List.Remove`. The model treats these together as removal at the index of the first match. The two agree because the first element equal to the found actor is that first match. The model has no null actors.
- `EventDispatcher.Update` reads its `GameTime` only to pass it to the base-class `GameComponent.Update`, which is not part of this model. The model's `Update` therefore takes no time argument.
- Events.EventDispatcher.Update: the subscriber flags are read once, before the drain. The source tests `CameraChanged` and `MenuChanged` again for each event, so a handler that subscribes or unsubscribes during a drain is not modelled.
