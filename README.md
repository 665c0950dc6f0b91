# HKMP entity synchronisation, modelled in Dafny

HKMP is a multiplayer mod for Hollow Knight. In each scene one player is the
*scene host*: the host's enemies run their own AI and report what they do. The
other players are *scene clients*: their copies of those enemies are frozen and
replay what the host reports. This project models the client-side core of that
synchronisation and proves properties about it.

- **Entity manager** (`entity_manager.dfy`, `entity_registry.dfy`, `entity_names.dfy`,
  `enemy_ids.dfy`, `strings.dfy`).
  - The registry maps `(entity type, instance id)` to an entity. It is a .NET
    dictionary that is only added to or overwritten and is cleared all at once, so it
    is modelled as a sequence of entries in enumeration order.
  - It routes scene events to the registered entities: entering a scene as host or as
    client, switching to host, the sync setting changing, the scene changing, and an
    enemy object being enabled.
  - It routes inbound position, scale, animation and state updates.
  - It classifies an enemy's object name with an ordered chain of substring rules,
    then parses the instance id from what is left of the name.
  - The entities themselves are opaque handles. Every call the manager makes on one is
    recorded, in order, in an append-only trace.
- **Enemies** (one file per enemy class). Each class is modelled as a Dafny class with
  the last animation index it received (a C# enum field, so it starts at 0) and an
  append-only trace of the engine calls it makes. Beside the class are pure tables:
  - `Hook`: the PlayMaker node, or `ClipHook`: the sprite clip, that makes the host
    send each animation index;
  - `Replay`: what a client does on receiving an index;
  - `Resume`: the state a client forces on its state machine when it takes over as
    host;
  - `ClientInit`: what client initialisation does.

  Lemmas relate these tables. The main ones say that the node an animation is
  replayed on is the node that sends it, and that an enemy that never received an
  update resumes in the state of index 0. Where the tables do not line up, lemmas
  prove exactly how they differ.
- **Team update packets** (`player_team_update.dfy`). These are the client and server
  variants of the team-change packet. A packet is modelled as a queue of typed values
  with a read cursor. Proved:
  - the field order of each variant;
  - the reliability flags;
  - the write-then-read round trip, for teams that fit in a byte.

Several behaviours of the code are proved as written, where a reader might expect
otherwise:

- The generic "Fly" rule comes before "Fat Fly" and "Acid Flyer", so no object is
  ever registered as an Obble or a Duranda (`EntityNames.FlyShadowsFatFlyAndAcidFlyer`).
- Husk Bully's ids are read with only "Barger" removed. Gulka's are read with
  "PlantTurret" removed, which never occurs in a name containing "Plant Turret".
- Some indices are replayed on a node other than the one that sends them:
  - Mosscreep: sent from "Walk Start", replayed on "WalkStart";
  - Baldur: Land and the left-or-right check;
  - Durandoo: Blocked;
  - Volatile Mosskin: Dead.
- Some states forced on taking over as host are spelt differently from the node
  that sends and replays the same index: Squit's "CheckDir" against "Check Dir", and
  Volatile Mosskin's "IdlePause" against "Idle Pause".
- Brooding Mawlek's "Super Spit" node is hooked twice, so the host sends SuperSpit
  twice each time it enters that node.
- Tiktik's host reports the clip "Walk", while the client plays "walk".
- Goam compares the client-init state with the literal 1, which its State enum does
  not declare. Its UpdateAnimation makes no base call.

The `Common` module (`common.dfy`) holds C#'s `byte`, an option type, and the
engine-call trace entries that all enemies share.

## Model

| member | source | states |
|---|---|---|
| Strings.ContainsTransitive | HKMP/Game/Client/Entity/EntityManager.cs:556 | A name containing a pattern contains every substring of that pattern (so "Fat Fly" and "Acid Flyer" names contain "Fly") |
| Strings.RemoveAll | HKMP/Game/Client/Entity/EntityManager.cs:449 | `Replace(p, "")` never lengthens the name and leaves only characters of the name |
| Strings.RemovePrefix | HKMP/Game/Client/Entity/EntityManager.cs:550 | Removing a pattern from a name that starts with it removes that occurrence and continues on the rest |
| Strings.SplitProperties | HKMP/Game/Client/Entity/EntityManager.cs:773 | `Split(' ')` yields at least one piece, no piece holds a space, and the last piece is everything after the last space |
| Strings.SplitJoin | HKMP/Game/Client/Entity/EntityManager.cs:773 | Joining the pieces of a split with the separator gives back the name |
| Strings.LastPieceAfterSeparator | HKMP/Game/Client/Entity/EntityManager.cs:779 | The last piece of `a + sep + b` is `b` whenever `b` has no separator |
| Strings.TryParseByte | HKMP/Game/Client/Entity/EntityManager.cs:783 | A string of digits parses to its value when below 256; a string with no digit fails |
| EnemyIds.LastToken | HKMP/Game/Client/Entity/EntityManager.cs:773-779 | The last token is a suffix of the leftover name and contains no space |
| EnemyIds.GetEnemyId | HKMP/Game/Client/Entity/EntityManager.cs:771-786 | A last token with no digit, and so a leftover name with no digit at all, yields id 0 |
| EnemyIds.StripParensAround | HKMP/Game/Client/Entity/EntityManager.cs:781 | Removing the parentheses of "(d)" leaves the digits d |
| EnemyIds.IdRoundTrip | HKMP/Game/Client/Entity/EntityManager.cs:771-786 | Unity copy names round-trip: any prefix followed by " (n)" yields id n for every n < 256 |
| EnemyIds.ParenthesisedId | HKMP/Game/Client/Entity/EntityManager.cs:771-786 | " (n)" alone, what a copy name leaves once its pattern is removed, yields id n |
| EnemyIds.IdRoundTripPlain | HKMP/Game/Client/Entity/EntityManager.cs:771-786 | A name ending in " n" yields id n for every n < 256 |
| EnemyIds.IdOverflowGivesZero | HKMP/Game/Client/Entity/EntityManager.cs:783-785 | A copy number above 255 in " (n)" fails to parse and leaves the id at 0, whatever comes before it |
| EnemyIds.IdOverflowPlainGivesZero | HKMP/Game/Client/Entity/EntityManager.cs:783-785 | A number above 255 in " n" fails to parse and leaves the id at 0 |
| EnemyIds.NoNumberNoId | HKMP/Game/Client/Entity/EntityManager.cs:779-785 | Only the last token is read: a last token without digits leaves the id at 0, even when earlier text holds a number |
| EntityNames.TypeOf | HKMP/Game/Client/Entity/EntityManager.cs:88 | The cast `(EntityType)b` names a registrable type exactly for the bytes below the count of such types |
| EntityNames.Code | HKMP/Game/Client/Entity/EntityManager.cs:276 | The cast `(byte)entityType` casts back to the same member |
| EntityNames.CodeInjective | HKMP/Game/Client/Entity/EntityManager.cs:276 | Two different types never share a byte |
| EntityNames.CastRoundTrip | HKMP/Game/Client/Entity/EntityManager.cs:88 | Every byte that names a member is that member's byte |
| EntityNames.RuleAt | HKMP/Game/Client/Entity/EntityManager.cs:445-734 | The 29 rules of InstantiateEntity in source order, with the strip strings as written ("Barger", "PlantTurret") |
| EntityNames.FirstMatch | HKMP/Game/Client/Entity/EntityManager.cs:445-768 | The first rule from position k that matches, with no earlier rule matching; none when no rule matches |
| EntityNames.Instantiate | HKMP/Game/Client/Entity/EntityManager.cs:433-769 | Fails exactly when no rule matches; otherwise the first matching rule's type, with the id read from the name with that rule's strip string removed |
| EntityNames.SkipNonMatching | HKMP/Game/Client/Entity/EntityManager.cs:445-768 | Rules that do not match do not change which rule matches first |
| EntityNames.FlyShadowsFatFlyAndAcidFlyer | HKMP/Game/Client/Entity/EntityManager.cs:556-724 | No name is ever classified as Obble or Duranda: the earlier "Fly" rule catches every "Fat Fly" and "Acid Flyer" name |
| EntityNames.FlyCaughtByRuleEleven | HKMP/Game/Client/Entity/EntityManager.cs:556-564 | A name containing "Fly" is caught by the "Fly" rule or an earlier one |
| EntityNames.FlyNamesClassifyAsGruzzer | HKMP/Game/Client/Entity/EntityManager.cs:556-724 | "Fat Fly" and "Acid Flyer" names classify as Gruzzer or as a type of an earlier rule |
| EntityNames.GiantFlyIsGruzMother | HKMP/Game/Client/Entity/EntityManager.cs:445-454 | A name with "Giant Fly" is always GruzMother, with the id read after removing "Giant Fly" |
| EntityNames.HatcherNeedsNoBabySpawner | HKMP/Game/Client/Entity/EntityManager.cs:596-604 | A name classified as AspidMother contains "Hatcher" and not "Baby Spawner" |
| EntityNames.CrawlerIsTenth | HKMP/Game/Client/Entity/EntityManager.cs:546-554 | A name starting with "Crawler" and free of the earlier patterns' letters is caught by the "Crawler" rule |
| EntityNames.InstantiateAt | HKMP/Game/Client/Entity/EntityManager.cs:433-769 | Once the first matching rule is known, classification yields its type and the id of the stripped name |
| EntityNames.CrawlerRoundTrip | HKMP/Game/Client/Entity/EntityManager.cs:546-554 | "Crawler (n)" registers as Crawlid with id n, for every n < 256 |
| EntityNames.BareCrawler | HKMP/Game/Client/Entity/EntityManager.cs:546-554 | A bare "Crawler" registers as Crawlid with id 0 |
| EntityRegistry.Refs | HKMP/Game/Client/Entity/EntityManager.cs:57 | The dictionary's Values, one per entry, in enumeration order |
| EntityRegistry.IndexOf | HKMP/Game/Client/Entity/EntityManager.cs:88 | The first slot holding the key; none exactly when no entry has it |
| EntityRegistry.Lookup | HKMP/Game/Client/Entity/EntityManager.cs:88 | `TryGetValue` fails exactly when no entry has the key; otherwise it returns an entity stored under the key |
| EntityRegistry.Put | HKMP/Game/Client/Entity/EntityManager.cs:255 | The indexer set overwrites the key's entry in place, or appends it when the key is new |
| EntityRegistry.LookupUnique | HKMP/Game/Client/Entity/EntityManager.cs:88 | With distinct keys, lookup returns the entity of the one entry holding the key |
| EntityRegistry.PutLookup | HKMP/Game/Client/Entity/EntityManager.cs:255 | After storing v under k, k finds v and every other key finds what it found before |
| EntityRegistry.PutKeysDistinct | HKMP/Game/Client/Entity/EntityManager.cs:255 | Storing keeps the keys distinct |
| EntityRegistry.PutFresh | HKMP/Game/Client/Entity/EntityManager.cs:242-255 | Storing a newly created entity keeps the registry well formed, and the entity it replaces is no longer registered |
| EntityManager.Broadcast | HKMP/Game/Client/Entity/EntityManager.cs:57-61 | One call per registered entity, in enumeration order |
| EntityManager.BroadcastReachesEachOnce | HKMP/Game/Client/Entity/EntityManager.cs:57-61 | A broadcast reaches every registered entity exactly once and no other entity |
| EntityManager.EntryCalls | HKMP/Game/Client/Entity/EntityManager.cs:96-116 | Scene-client set-up of one entity: InitializeAsSceneClient first (with the state iff that kind is present), then position iff present, then scale iff present, last |
| EntityManager.AddressedIsRegistered | HKMP/Game/Client/Entity/EntityManager.cs:84-88 | An update finds exactly the entity whose key casts to the update's type byte and id |
| EntityManager.ClientEntryTargetsRegistered | HKMP/Game/Client/Entity/EntityManager.cs:82-117 | Every call made on entering as client goes to a registered entity |
| EntityManager.OneInitPerFoundUpdate | HKMP/Game/Client/Entity/EntityManager.cs:82-117 | Each batch update whose key is registered initialises its entity exactly once; the others are skipped |
| EntityManager.NoInitsAfterFirst | HKMP/Game/Client/Entity/EntityManager.cs:105-116 | After the initialisation, an entry only sets position and scale |
| EntityManager.FirstCached | HKMP/Game/Client/Entity/EntityManager.cs:406-429 | The first cached update addressing the key, with no earlier one addressing it; none exactly when no update addresses it |
| EntityManager.LateInit | HKMP/Game/Client/Entity/EntityManager.cs:395-430 | As host: InitializeAsSceneHost; as client: the set-up from the first cached update for the key, nothing without a cache or a matching update |
| EntityManager.Route | HKMP/Game/Client/Entity/EntityManager.cs:302-377 | Nothing on the scene host or for an unregistered key; otherwise exactly one call, the given one, on the entity registered under the key |
| EntityManager.EntityManager.constructor | HKMP/Game/Client/Entity/EntityManager.cs:30-38 | Starts with no entities, sync disabled, no scene status, not host, no cache and no calls made |
| EntityManager.EntityManager.BroadcastCall | HKMP/Game/Client/Entity/EntityManager.cs:57-61 | Appends Broadcast(entities, c) to the trace and changes nothing else |
| EntityManager.EntityManager.OnEnterSceneAsHost | HKMP/Game/Client/Entity/EntityManager.cs:43-62 | Always sets the host and received-status flags; only when enabled, initialises every entity as host once; registry unchanged |
| EntityManager.EntityManager.OnEnterSceneAsClient | HKMP/Game/Client/Entity/EntityManager.cs:67-118 | Always clears the host flag, sets received-status and caches the batch; only when enabled, appends the client set-up of each addressed entity in batch order |
| EntityManager.EntityManager.ClientEntryCalls | HKMP/Game/Client/Entity/EntityManager.cs:82-117 | The loop over the batch computes exactly ClientEntry(registry, batch) |
| EntityManager.EntityManager.ClientSetUp | HKMP/Game/Client/Entity/EntityManager.cs:96-116 | The calls for one addressed update are exactly EntryCalls |
| EntityManager.EntityManager.OnSwitchToSceneHost | HKMP/Game/Client/Entity/EntityManager.cs:123-136 | Always sets the host flag; only when enabled, tells every entity SwitchToSceneHost once |
| EntityManager.EntityManager.OnEntitySyncSettingChanged | HKMP/Game/Client/Entity/EntityManager.cs:141-146 | Only records the setting; no entity is called |
| EntityManager.EntityManager.OnSceneChanged | HKMP/Game/Client/Entity/EntityManager.cs:148-162 | Clears received-status, destroys every registered entity once, whatever the setting, and empties the registry |
| EntityManager.EntityManager.FindCachedUpdate | HKMP/Game/Client/Entity/EntityManager.cs:406-429 | The scan over the cache finds exactly FirstCached |
| EntityManager.EntityManager.InitializeFromStatus | HKMP/Game/Client/Entity/EntityManager.cs:395-430 | Appends exactly LateInit for the entity under the current flags and cache |
| EntityManager.EntityManager.OnEnableEnemyHook | HKMP/Game/Client/Entity/EntityManager.cs:236-300 | Returns the dead flag unchanged; an unclassified name changes nothing; otherwise stores a new entity under its key (replacing any) and sets it up only when enabled and the scene status is known |
| EntityManager.EntityManager.Register | HKMP/Game/Client/Entity/EntityManager.cs:255-297 | Stores a new entity under the key and sets it up from the scene status only when enabled and the status is known |
| EntityManager.EntityManager.InitializeEntity | HKMP/Game/Client/Entity/EntityManager.cs:382-431 | Nothing for an unregistered key; otherwise LateInit of the registered entity, whatever the setting |
| EntityManager.EntityManager.Dispatch | HKMP/Game/Client/Entity/EntityManager.cs:302-377 | Appends Route(...) for the key and call; the registry and flags are unchanged |
| EntityManager.EntityManager.UpdateEntityPosition | HKMP/Game/Client/Entity/EntityManager.cs:302-317 | Position reaches only the registered entity, and only off the scene host |
| EntityManager.EntityManager.UpdateEntityScale | HKMP/Game/Client/Entity/EntityManager.cs:319-334 | Scale reaches only the registered entity, and only off the scene host |
| EntityManager.EntityManager.UpdateEntityAnimation | HKMP/Game/Client/Entity/EntityManager.cs:336-356 | Animation index and info reach only the registered entity, and only off the scene host |
| EntityManager.EntityManager.UpdateEntityState | HKMP/Game/Client/Entity/EntityManager.cs:358-377 | State reaches only the registered entity, and only off the scene host |
| HuskWarrior.Hook | HKMP/Game/Client/Entity/Husks/HuskWarrior.cs:83-104 | Every hooked node sends an index below Idle whose replay is a single action run on that same node |
| HuskWarrior.ReplayedNodeSendsIt | HKMP/Game/Client/Entity/Husks/HuskWarrior.cs:83-104 | The node a state-machine animation is replayed on is the node whose hook sends that same animation |
| HuskWarrior.ClipHook | HKMP/Game/Client/Entity/Husks/HuskWarrior.cs:64-77 | Exactly the walker clips "Idle", "Walk" and "Turn" send an index, and the client replays that same clip |
| HuskWarrior.Resume | HKMP/Game/Client/Entity/Husks/HuskWarrior.cs:144-211 | Idle, Turn and indices past the enum force nothing; every other index forces a state of the main FSM |
| HuskWarrior.Replay | HKMP/Game/Client/Entity/Husks/HuskWarrior.cs:215-352 | Indices past the enum replay nothing; FSM indices run one node's actions on the main FSM; only Idle stops the audio and only Walk plays it |
| HuskWarrior.ClientInit | HKMP/Game/Client/Entity/Husks/HuskWarrior.cs:113-126 | Freezes the FSM, stops and disables the walker, and deactivates if and only if the state is Dead |
| HuskWarrior.NeverUpdatedResumesStart | HKMP/Game/Client/Entity/Husks/HuskWarrior.cs:146-151 | With no update the stored index is 0, which forces "Start" |
| HuskWarrior.HuskWarrior.InternalInitializeAsSceneHost | HKMP/Game/Client/Entity/Husks/HuskWarrior.cs:107-112 | Sends Active and enables the walker |
| HuskWarrior.HuskWarrior.InternalInitializeAsSceneClient | HKMP/Game/Client/Entity/Husks/HuskWarrior.cs:113-126 | Appends exactly ClientInit(stateIndex); the last animation is kept |
| HuskWarrior.HuskWarrior.HealthManagerOnDieHook | HKMP/Game/Client/Entity/Husks/HuskWarrior.cs:129-136 | Runs the base die hook, then sends Dead |
| HuskWarrior.HuskWarrior.InternalSwitchToSceneHost | HKMP/Game/Client/Entity/Husks/HuskWarrior.cs:138-213 | Restores transitions, enables the walker, then sets the state Resume(last animation), if any |
| HuskWarrior.HuskWarrior.UpdateAnimation | HKMP/Game/Client/Entity/Husks/HuskWarrior.cs:215-352 | Stores the received index and appends the base call, then Replay(index) |
| BroodingMawlek.Hook | HKMP/Game/Client/Entity/Bosses/BroodingMawlek.cs:91-149 | The sends a node makes, in order: each belongs to the node's FSM and every one but Title is replayed on the very node, of the very FSM, that sent it; only "Super Spit" sends more than once |
| BroodingMawlek.BodyHook | HKMP/Game/Client/Entity/Bosses/BroodingMawlek.cs:93-129 | The body FSM's hooks: Wake is sent with info 0 and "GG Wake" with info 1, "Super Spit" sends twice; each send replays on its node |
| BroodingMawlek.SuperSpitSendsTwice | HKMP/Game/Client/Entity/Bosses/BroodingMawlek.cs:120-126 | "Super Spit" is hooked twice, so entering it sends SuperSpit twice |
| BroodingMawlek.ReplayedNodeSendsIt | HKMP/Game/Client/Entity/Bosses/BroodingMawlek.cs:91-149 | The first node a replay runs is hooked to send that same index and info, for every replayed index and both wake variants |
| BroodingMawlek.HeadHook | HKMP/Game/Client/Entity/Bosses/BroodingMawlek.cs:131-136 | The head FSM's hooks, each replayed on its node of the head FSM |
| BroodingMawlek.ArmLHook | HKMP/Game/Client/Entity/Bosses/BroodingMawlek.cs:138-142 | The left arm FSM's hooks, each replayed on its node of that FSM |
| BroodingMawlek.ArmRHook | HKMP/Game/Client/Entity/Bosses/BroodingMawlek.cs:144-148 | The right arm FSM's hooks, each replayed on its node of that FSM |
| BroodingMawlek.ClipHook | HKMP/Game/Client/Entity/Bosses/BroodingMawlek.cs:74-87 | Exactly the walker clips "Idle", "Walk" and "Turn" send an index, whose replay is empty |
| BroodingMawlek.Resume | HKMP/Game/Client/Entity/Bosses/BroodingMawlek.cs:208-321 | Forces nothing for WakeInAir, Start, Cooldown, Idle, Turn and indices past the enum; otherwise a node of the FSM the index belongs to |
| BroodingMawlek.WakeReplay | HKMP/Game/Client/Entity/Bosses/BroodingMawlek.cs:342-353 | The ordinary wake runs iff the info byte is 0; the Godhome wake action always runs last |
| BroodingMawlek.Replay | HKMP/Game/Client/Entity/Bosses/BroodingMawlek.cs:324-524 | Fails iff Wake arrives with empty info; every action runs on the index's own FSM; empty exactly for Title, Idle, Walk, Turn and indices past the enum |
| BroodingMawlek.ClientInit | HKMP/Game/Client/Entity/Bosses/BroodingMawlek.cs:171-196 | Disables the walker and never deactivates |
| BroodingMawlek.ClientInitFreezesEveryFsm | HKMP/Game/Client/Entity/Bosses/BroodingMawlek.cs:173-176 | Client init freezes each of the four FSMs |
| BroodingMawlek.ClientInitIgnoresState | HKMP/Game/Client/Entity/Bosses/BroodingMawlek.cs:171-196 | The received state makes no difference to client init |
| BroodingMawlek.NeverUpdatedResumesDormant | HKMP/Game/Client/Entity/Bosses/BroodingMawlek.cs:208-214 | With no update the stored index is Init (0), which forces "Dormant" |
| BroodingMawlek.BroodingMawlek.InternalInitializeAsSceneHost | HKMP/Game/Client/Entity/Bosses/BroodingMawlek.cs:151-169 | Enables the walker and sends Active |
| BroodingMawlek.BroodingMawlek.InternalInitializeAsSceneClient | HKMP/Game/Client/Entity/Bosses/BroodingMawlek.cs:171-196 | Appends exactly ClientInit(stateIndex); the last animation is kept |
| BroodingMawlek.BroodingMawlek.InternalSwitchToSceneHost | HKMP/Game/Client/Entity/Bosses/BroodingMawlek.cs:198-322 | Restores all four FSMs, enables the walker, then forces Resume(last animation), if any |
| BroodingMawlek.BroodingMawlek.UpdateAnimation | HKMP/Game/Client/Entity/Bosses/BroodingMawlek.cs:324-524 | Stores the index first; reports a throw iff Wake arrives with empty info, otherwise appends Replay(index, info) |
| MossKnight.Hook | HKMP/Game/Client/Entity/Mosskins/MossKnight.cs:34-63 | Every hooked node sends an index of the enum whose replay is a single action run on that same node |
| MossKnight.Resume | HKMP/Game/Client/Entity/Mosskins/MossKnight.cs:96-178 | Total over the enum: exactly the indices past UnshieldL force nothing; all targets are on the main FSM |
| MossKnight.Replay | HKMP/Game/Client/Entity/Mosskins/MossKnight.cs:182-334 | Every index of the enum replays a single action run on the main FSM; indices past the enum replay nothing |
| MossKnight.ClientInit | HKMP/Game/Client/Entity/Mosskins/MossKnight.cs:71-79 | Freezes the FSM first and deactivates if and only if the state is Dead |
| MossKnight.ReplayedNodeSendsIt | HKMP/Game/Client/Entity/Mosskins/MossKnight.cs:182-334 | The node each animation is replayed on is hooked to send that same animation |
| MossKnight.NeverUpdatedResumesSleep | HKMP/Game/Client/Entity/Mosskins/MossKnight.cs:96-100 | With no update the stored index is Sleep (0), which forces its resume node |
| MossKnight.MossKnight.InternalInitializeAsSceneHost | HKMP/Game/Client/Entity/Mosskins/MossKnight.cs:66-70 | Sends Active |
| MossKnight.MossKnight.InternalInitializeAsSceneClient | HKMP/Game/Client/Entity/Mosskins/MossKnight.cs:71-79 | Appends exactly ClientInit(stateIndex); the last animation is kept |
| MossKnight.MossKnight.HealthManagerOnDieHook | HKMP/Game/Client/Entity/Mosskins/MossKnight.cs:81-88 | Runs the base die hook, then sends Dead |
| MossKnight.MossKnight.InternalSwitchToSceneHost | HKMP/Game/Client/Entity/Mosskins/MossKnight.cs:90-180 | Restores transitions, then forces Resume(last animation) |
| MossKnight.MossKnight.UpdateAnimation | HKMP/Game/Client/Entity/Mosskins/MossKnight.cs:182-334 | Stores the received index and appends the base call, then Replay(index) |
| HuskGuard.Hook | HKMP/Game/Client/Entity/Husks/HuskGuard.cs:38-65 | Every sent index except Turn has a resume target; nodes that do not share their index are replayed on that same node |
| HuskGuard.Resume | HKMP/Game/Client/Entity/Husks/HuskGuard.cs:101-154 | Dormant -> "Initiate"; Idle, StopRun, StopWalk -> "Idle"; Wake -> "Cooldown"; Anticipate -> "Attack"; Attack2 -> "Impact"; StompAntic -> "Stomp Jump"; StompJump -> "In Air"; StompLand -> "Stomp Cooldown"; Startle -> "Alert"; Run, Walk -> "Face Hero"; Impact, ImpactLeft, ImpactRight -> "Attack Recoil"; AttackRecoil -> "Attack End"; Turn and every index past AttackRecoil force nothing |
| HuskGuard.Replay | HKMP/Game/Client/Entity/Husks/HuskGuard.cs:158-251 | Exactly the animations with a client branch replay something; Turn replay nothing; FSM branches run their node's actions on the main FSM |
| HuskGuard.ClientInit | HKMP/Game/Client/Entity/Husks/HuskGuard.cs:74-84 | Deactivates if and only if the state is Dead (1); first effects RemoveAllTransitions(Main) |
| HuskGuard.ReplayedNodeSendsIt | HKMP/Game/Client/Entity/Husks/HuskGuard.cs:158-251 | The node an animation is replayed on is hooked to send that same animation |
| HuskGuard.NeverUpdatedResumesInitiate | HKMP/Game/Client/Entity/Husks/HuskGuard.cs:15 | With no update the stored index is Dormant (0), which forces "Initiate" |
| HuskGuard.IdleSharedByThreeNodes | HKMP/Game/Client/Entity/Husks/HuskGuard.cs:42-53 | "Cooldown", "Idle" and "Stomp Cooldown" all send Idle |
| HuskGuard.TurnSharedByFourNodes | HKMP/Game/Client/Entity/Husks/HuskGuard.cs:59-63 | The four turn nodes all send Turn |
| HuskGuard.WalkSharedByThreeNodes | HKMP/Game/Client/Entity/Husks/HuskGuard.cs:57-64 | "Walk", "Return Right" and "Return Left" all send Walk |
| HuskGuard.TurnIsOnlyStored | HKMP/Game/Client/Entity/Husks/HuskGuard.cs:101-154 | Turn has no replay branch and no resume target |
| HuskGuard.HuskGuard.InternalInitializeAsSceneHost | HKMP/Game/Client/Entity/Husks/HuskGuard.cs:67-72 | Appends exactly [SendStateUpdate(Active)] |
| HuskGuard.HuskGuard.InternalInitializeAsSceneClient | HKMP/Game/Client/Entity/Husks/HuskGuard.cs:74-84 | Appends exactly ClientInit(stateIndex); the last animation is kept |
| HuskGuard.HuskGuard.HealthManagerOnDieHook | HKMP/Game/Client/Entity/Husks/HuskGuard.cs:86-93 | Runs the base die hook, then sends state Dead (1) |
| HuskGuard.HuskGuard.InternalSwitchToSceneHost | HKMP/Game/Client/Entity/Husks/HuskGuard.cs:95-155 | Appends [RestoreAllTransitions(Main)], then the SetState of Resume(last animation), if any; the last animation is kept |
| HuskGuard.HuskGuard.UpdateAnimation | HKMP/Game/Client/Entity/Husks/HuskGuard.cs:158-251 | Stores the received index (in range or not) as the last animation and appends the base call, then Replay(index) |
| MossCharger.Hook | HKMP/Game/Client/Entity/Chargers/MossCharger.cs:34-57 | Every hooked node is replayed on that same node; only Detach among the sent indices has no resume target |
| MossCharger.Resume | HKMP/Game/Client/Entity/Chargers/MossCharger.cs:89-151 | Emerge, Charge -> "Charge"; Submerge -> "Submerge Grass effect"; SubmergeGrass -> "Submerge CD"; SubmergeCD -> "Play Range"; PlayRange -> "Hidden"; LineLoop -> "Line Loop"; Burst -> "Burst"; FlyLeft, FlyRight, FlyUp, FlyDown -> "In Air"; InAir -> "Land"; GetUp, Direction -> "Direction"; RunL -> "Run L"; RunR -> "Run R"; OnGround -> "On Ground?"; DigStart -> "Dig Start"; Dig -> "Dig"; Detach and every index past Dig force nothing |
| MossCharger.Replay | HKMP/Game/Client/Entity/Chargers/MossCharger.cs:155-251 | Exactly the animations with a client branch replay something; FSM branches run their node's actions on the main FSM |
| MossCharger.ClientInit | HKMP/Game/Client/Entity/Chargers/MossCharger.cs:64-72 | Deactivates if and only if the state is Dead (1); first effects RemoveAllTransitions(Main) |
| MossCharger.ReplayedNodeSendsIt | HKMP/Game/Client/Entity/Chargers/MossCharger.cs:155-251 | The node an animation is replayed on is hooked to send that same animation |
| MossCharger.NeverUpdatedForcesNothing | HKMP/Game/Client/Entity/Chargers/MossCharger.cs:14 | With no update the stored index is Detach (0), which forces nothing |
| MossCharger.MossCharger.InternalInitializeAsSceneHost | HKMP/Game/Client/Entity/Chargers/MossCharger.cs:59-63 | Appends exactly [SendStateUpdate(Active)] |
| MossCharger.MossCharger.InternalInitializeAsSceneClient | HKMP/Game/Client/Entity/Chargers/MossCharger.cs:64-72 | Appends exactly ClientInit(stateIndex); the last animation is kept |
| MossCharger.MossCharger.HealthManagerOnDieHook | HKMP/Game/Client/Entity/Chargers/MossCharger.cs:74-81 | Runs the base die hook, then sends state Dead (1) |
| MossCharger.MossCharger.InternalSwitchToSceneHost | HKMP/Game/Client/Entity/Chargers/MossCharger.cs:83-153 | Appends [RestoreAllTransitions(Main)], then the SetState of Resume(last animation), if any; the last animation is kept |
| MossCharger.MossCharger.UpdateAnimation | HKMP/Game/Client/Entity/Chargers/MossCharger.cs:155-251 | Stores the received index (in range or not) as the last animation and appends the base call, then Replay(index) |
| ElderBaldur.Hook | HKMP/Game/Client/Entity/Baldurs/ElderBaldur.cs:98-111 | Every sent index has a resume target; every node but "Sleep 1" and "Sleep 2" is replayed on that same node |
| ElderBaldur.Resume | HKMP/Game/Client/Entity/Baldurs/ElderBaldur.cs:152-181 | Init -> "Direction"; Open, Idle -> "Idle"; Close -> "Close2"; Close2 -> "Closed"; Goop, Roller -> "Shot Antic"; ShotAntic -> "Fire"; Fire -> "Roller Assign"; total over the enum: only indices past Fire force nothing |
| ElderBaldur.Replay | HKMP/Game/Client/Entity/Baldurs/ElderBaldur.cs:185-239 | Exactly the animations with a client branch replay something; FSM branches run their node's actions on the main FSM |
| ElderBaldur.ClientInit | HKMP/Game/Client/Entity/Baldurs/ElderBaldur.cs:120-133 | Deactivates if and only if the state is the literal 1; first effects RemoveAllTransitions(Main) |
| ElderBaldur.ReplayedNodeSendsIt | HKMP/Game/Client/Entity/Baldurs/ElderBaldur.cs:185-239 | The node an animation is replayed on is hooked to send that same animation |
| ElderBaldur.NeverUpdatedResumesIdle | HKMP/Game/Client/Entity/Baldurs/ElderBaldur.cs:15 | With no update the stored index is Idle (0), which forces "Idle" |
| ElderBaldur.SleepNodesSendCloseIndices | HKMP/Game/Client/Entity/Baldurs/ElderBaldur.cs:103-110 | "Sleep 1" sends Close and "Sleep 2" sends Close2, like the close nodes themselves |
| ElderBaldur.ElderBaldur.InternalInitializeAsSceneHost | HKMP/Game/Client/Entity/Baldurs/ElderBaldur.cs:113-119 | Appends exactly [SendStateUpdate(Active)] |
| ElderBaldur.ElderBaldur.InternalInitializeAsSceneClient | HKMP/Game/Client/Entity/Baldurs/ElderBaldur.cs:120-133 | Appends exactly ClientInit(stateIndex); the last animation is kept |
| ElderBaldur.ElderBaldur.HealthManagerOnDieHook | HKMP/Game/Client/Entity/Baldurs/ElderBaldur.cs:137-144 | Runs the base die hook, then sends state Dead (1) |
| ElderBaldur.ElderBaldur.InternalSwitchToSceneHost | HKMP/Game/Client/Entity/Baldurs/ElderBaldur.cs:146-183 | Appends [RestoreAllTransitions(Main)], then the SetState of Resume(last animation), if any; the last animation is kept |
| ElderBaldur.ElderBaldur.UpdateAnimation | HKMP/Game/Client/Entity/Baldurs/ElderBaldur.cs:185-239 | Stores the received index (in range or not) as the last animation and appends the base call, then Replay(index) |
| AspidHunter.Hook | HKMP/Game/Client/Entity/Fliers/Aspids/AspidHunter.cs:75-85 | Every sent index has a resume target (so Fly, FireLong and TurnToFly are never sent) and is replayed on that same node |
| AspidHunter.Resume | HKMP/Game/Client/Entity/Fliers/Aspids/AspidHunter.cs:120-146 | DFly -> "Raycast"; DFly2 -> "Distance Fly 2"; FireAnticipate -> "Fire"; Fire -> "FireDribble"; FireDribble, Alert -> "Distance Fly"; FlyBack -> "Fire Anticipate"; Idle -> "Idle"; Fly, FireLong, TurnToFly and every index past FireDribble force nothing |
| AspidHunter.Replay | HKMP/Game/Client/Entity/Fliers/Aspids/AspidHunter.cs:150-220 | Exactly the animations with a client branch replay something; Fly, FireLong, TurnToFly replay nothing; FSM branches run their node's actions on the main FSM |
| AspidHunter.ClientInit | HKMP/Game/Client/Entity/Fliers/Aspids/AspidHunter.cs:93-102 | Deactivates if and only if the state is Dead (1); first effects SetAnimatorEnabled(false), RemoveAllTransitions(Main) |
| AspidHunter.ReplayedNodeSendsIt | HKMP/Game/Client/Entity/Fliers/Aspids/AspidHunter.cs:150-220 | The node an animation is replayed on is hooked to send that same animation |
| AspidHunter.NeverUpdatedForcesNothing | HKMP/Game/Client/Entity/Fliers/Aspids/AspidHunter.cs:233 | With no update the stored index is Fly (0), which forces nothing |
| AspidHunter.AspidHunter.InternalInitializeAsSceneHost | HKMP/Game/Client/Entity/Fliers/Aspids/AspidHunter.cs:87-92 | Appends exactly [SendStateUpdate(Active), SetAnimatorEnabled(true)] |
| AspidHunter.AspidHunter.InternalInitializeAsSceneClient | HKMP/Game/Client/Entity/Fliers/Aspids/AspidHunter.cs:93-102 | Appends exactly ClientInit(stateIndex); the last animation is kept |
| AspidHunter.AspidHunter.HealthManagerOnDieHook | HKMP/Game/Client/Entity/Fliers/Aspids/AspidHunter.cs:104-111 | Runs the base die hook, then sends state Dead (1) |
| AspidHunter.AspidHunter.InternalSwitchToSceneHost | HKMP/Game/Client/Entity/Fliers/Aspids/AspidHunter.cs:113-148 | Appends [RestoreAllTransitions(Main), SetAnimatorEnabled(true)], then the SetState of Resume(last animation), if any; the last animation is kept |
| AspidHunter.AspidHunter.UpdateAnimation | HKMP/Game/Client/Entity/Fliers/Aspids/AspidHunter.cs:150-220 | Stores the received index (in range or not) as the last animation and appends the base call, then Replay(index) |
| Goam.Hook | HKMP/Game/Client/Entity/Goam.cs:107-118 | Every sent index has a resume target and is replayed on the node that sends it ("Up" sends Idle) |
| Goam.Resume | HKMP/Game/Client/Entity/Goam.cs:156-170 | Retract -> "Down"; Idle -> "Retract"; Down -> "Burst Rocks?"; Burst -> "Up"; total over the enum: only indices past Burst force nothing |
| Goam.Replay | HKMP/Game/Client/Entity/Goam.cs:174-216 | Each animation runs its whole node (no action indices): Idle "Up", Burst "Burst", Down "Down", Retract "Retract"; other indices replay nothing |
| Goam.ClientInit | HKMP/Game/Client/Entity/Goam.cs:127-145 | Deactivates if and only if the state is the literal 1; first effects SetAnimatorEnabled(false), RemoveAllTransitions(Main) |
| Goam.ReplayedNodeSendsIt | HKMP/Game/Client/Entity/Goam.cs:174-216 | The node an animation is replayed on is hooked to send that same animation |
| Goam.NeverUpdatedResumesRetract | HKMP/Game/Client/Entity/Goam.cs:15 | With no update the stored index is Idle (0), which forces "Retract" |
| Goam.Goam.InternalInitializeAsSceneHost | HKMP/Game/Client/Entity/Goam.cs:120-126 | Appends exactly [SendStateUpdate(Active), SetAnimatorEnabled(true)] |
| Goam.Goam.InternalInitializeAsSceneClient | HKMP/Game/Client/Entity/Goam.cs:127-145 | Appends exactly ClientInit(stateIndex); the last animation is kept |
| Goam.Goam.InternalSwitchToSceneHost | HKMP/Game/Client/Entity/Goam.cs:149-172 | Appends [RestoreAllTransitions(Main), SetAnimatorEnabled(true)], then the SetState of Resume(last animation), if any; the last animation is kept |
| Goam.Goam.UpdateAnimation | HKMP/Game/Client/Entity/Goam.cs:174-216 | Stores the received index (in range or not) as the last animation and appends Replay(index) |
| HuskBully.Hook | HKMP/Game/Client/Entity/Husks/HuskBully.cs:82-88 | The lunge nodes are replayed on that same node and have a resume target; "Idle" sends Idle, which has none |
| HuskBully.ClipHook | HKMP/Game/Client/Entity/Husks/HuskBully.cs:64-78 | Sent exactly for the clips Idle, Walk and Turn; the client plays the same clip back |
| HuskBully.Resume | HKMP/Game/Client/Entity/Husks/HuskBully.cs:129-143 | Walk, Cooldown -> "Idle"; Anticipate -> "Lunge"; Lunge -> "Cooldown"; Idle, Turn and every index past Turn force nothing |
| HuskBully.Replay | HKMP/Game/Client/Entity/Husks/HuskBully.cs:147-193 | Exactly the animations with a client branch replay something; FSM branches run their node's actions on the main FSM; audio stops exactly on Idle and starts exactly on Walk |
| HuskBully.ClientInit | HKMP/Game/Client/Entity/Husks/HuskBully.cs:97-110 | Deactivates if and only if the state is the literal 1; first effects RemoveAllTransitions(Main), WalkerStop, SetWalkerEnabled(false) |
| HuskBully.ReplayedNodeSendsIt | HKMP/Game/Client/Entity/Husks/HuskBully.cs:147-193 | The node an animation is replayed on is hooked to send that same animation |
| HuskBully.NeverUpdatedResumesLunge | HKMP/Game/Client/Entity/Husks/HuskBully.cs:15 | With no update the stored index is Anticipate (0), which forces "Lunge" |
| HuskBully.HuskBully.InternalInitializeAsSceneHost | HKMP/Game/Client/Entity/Husks/HuskBully.cs:90-96 | Appends exactly [SendStateUpdate(Active), SetWalkerEnabled(true)] |
| HuskBully.HuskBully.InternalInitializeAsSceneClient | HKMP/Game/Client/Entity/Husks/HuskBully.cs:97-110 | Appends exactly ClientInit(stateIndex); the last animation is kept |
| HuskBully.HuskBully.HealthManagerOnDieHook | HKMP/Game/Client/Entity/Husks/HuskBully.cs:114-121 | Runs the base die hook, then sends state Dead (1) |
| HuskBully.HuskBully.InternalSwitchToSceneHost | HKMP/Game/Client/Entity/Husks/HuskBully.cs:123-145 | Appends [RestoreAllTransitions(Main), SetWalkerEnabled(true)], then the SetState of Resume(last animation), if any; the last animation is kept |
| HuskBully.HuskBully.UpdateAnimation | HKMP/Game/Client/Entity/Husks/HuskBully.cs:147-193 | Stores the received index (in range or not) as the last animation and appends the base call, then Replay(index) |
| VolatileMosskin.Hook | HKMP/Game/Client/Entity/Mosskins/VolatileMosskin.cs:81-88 | Every sent index but Death has a resume target; every node but "Dead" is replayed on that same node |
| VolatileMosskin.ClipHook | HKMP/Game/Client/Entity/Mosskins/VolatileMosskin.cs:64-77 | Sent exactly for the clips Idle, Walk and Turn; the client plays the same clip back |
| VolatileMosskin.Resume | HKMP/Game/Client/Entity/Mosskins/VolatileMosskin.cs:127-144 | Walk, IdlePause -> "Reset"; AttackAntic -> "Attack"; Attack -> "CD"; CD -> "IdlePause"; Idle, Turn, Death and every index past Death force nothing |
| VolatileMosskin.Replay | HKMP/Game/Client/Entity/Mosskins/VolatileMosskin.cs:148-200 | Exactly the animations with a client branch replay something; FSM branches run their node's actions on the main FSM; audio stops exactly on Idle and starts exactly on Walk |
| VolatileMosskin.ClientInit | HKMP/Game/Client/Entity/Mosskins/VolatileMosskin.cs:96-109 | Deactivates if and only if the state is Dead (1); first effects RemoveAllTransitions(Main), WalkerStop, SetWalkerEnabled(false) |
| VolatileMosskin.ReplayedNodeSendsIt | HKMP/Game/Client/Entity/Mosskins/VolatileMosskin.cs:148-200 | The node an animation is replayed on is hooked to send that same animation |
| VolatileMosskin.NeverUpdatedResumesAttack | HKMP/Game/Client/Entity/Mosskins/VolatileMosskin.cs:15 | With no update the stored index is AttackAntic (0), which forces "Attack" |
| VolatileMosskin.DeathReplay | HKMP/Game/Client/Entity/Mosskins/VolatileMosskin.cs:87 | "Dead" sends Death (7); the client runs node "Death" actions 1-5 |
| VolatileMosskin.IdlePauseResumeNameDiffers | HKMP/Game/Client/Entity/Mosskins/VolatileMosskin.cs:139 | Resuming after CD forces a state spelt "IdlePause", unlike the "Idle Pause" node that sends and replays IdlePause |
| VolatileMosskin.VolatileMosskin.InternalInitializeAsSceneHost | HKMP/Game/Client/Entity/Mosskins/VolatileMosskin.cs:90-95 | Appends exactly [SendStateUpdate(Active), SetWalkerEnabled(true)] |
| VolatileMosskin.VolatileMosskin.InternalInitializeAsSceneClient | HKMP/Game/Client/Entity/Mosskins/VolatileMosskin.cs:96-109 | Appends exactly ClientInit(stateIndex); the last animation is kept |
| VolatileMosskin.VolatileMosskin.HealthManagerOnDieHook | HKMP/Game/Client/Entity/Mosskins/VolatileMosskin.cs:112-119 | Runs the base die hook, then sends state Dead (1) |
| VolatileMosskin.VolatileMosskin.InternalSwitchToSceneHost | HKMP/Game/Client/Entity/Mosskins/VolatileMosskin.cs:121-146 | Appends [RestoreAllTransitions(Main), SetWalkerEnabled(true)], then the SetState of Resume(last animation), if any; the last animation is kept |
| VolatileMosskin.VolatileMosskin.UpdateAnimation | HKMP/Game/Client/Entity/Mosskins/VolatileMosskin.cs:148-200 | Stores the received index (in range or not) as the last animation and appends the base call, then Replay(index) |
| Mosscreep.Hook | HKMP/Game/Client/Entity/Crawlers/Mosscreep.cs:85-92 | Every sent index has a resume target (so Walk and Idle are never sent); every node but "Walk Start" is replayed on that same node |
| Mosscreep.Resume | HKMP/Game/Client/Entity/Crawlers/Mosscreep.cs:128-145 | Shake -> "Wake"; Wake -> "Activate"; WalkStart -> "WalkStart"; Turn -> "Flip"; Hide -> "Rest"; Walk, Idle and every index past Hide force nothing |
| Mosscreep.Replay | HKMP/Game/Client/Entity/Crawlers/Mosscreep.cs:149-197 | Exactly the animations with a client branch replay something; Walk, Idle replay nothing; FSM branches run their node's actions on the main FSM |
| Mosscreep.ClientInit | HKMP/Game/Client/Entity/Crawlers/Mosscreep.cs:101-111 | Deactivates if and only if the state is Dead (1); first effects RemoveAllTransitions(Main) |
| Mosscreep.ReplayedNodeSendsIt | HKMP/Game/Client/Entity/Crawlers/Mosscreep.cs:149-197 | The node an animation is replayed on is hooked to send that same animation |
| Mosscreep.NeverUpdatedForcesNothing | HKMP/Game/Client/Entity/Crawlers/Mosscreep.cs:211 | With no update the stored index is Walk (0), which forces nothing |
| Mosscreep.WalkStartReplayedElsewhere | HKMP/Game/Client/Entity/Crawlers/Mosscreep.cs:89 | "Walk Start" sends WalkStart, which the client replays on node "WalkStart", a name no hook uses |
| Mosscreep.Mosscreep.InternalInitializeAsSceneHost | HKMP/Game/Client/Entity/Crawlers/Mosscreep.cs:94-99 | Appends exactly [SendStateUpdate(Active)] |
| Mosscreep.Mosscreep.InternalInitializeAsSceneClient | HKMP/Game/Client/Entity/Crawlers/Mosscreep.cs:101-111 | Appends exactly ClientInit(stateIndex); the last animation is kept |
| Mosscreep.Mosscreep.HealthManagerOnDieHook | HKMP/Game/Client/Entity/Crawlers/Mosscreep.cs:113-120 | Runs the base die hook, then sends state Dead (1) |
| Mosscreep.Mosscreep.InternalSwitchToSceneHost | HKMP/Game/Client/Entity/Crawlers/Mosscreep.cs:122-147 | Appends [RestoreAllTransitions(Main)], then the SetState of Resume(last animation), if any; the last animation is kept |
| Mosscreep.Mosscreep.UpdateAnimation | HKMP/Game/Client/Entity/Crawlers/Mosscreep.cs:149-197 | Stores the received index (in range or not) as the last animation and appends the base call, then Replay(index) |
| LeapingHusk.Hook | HKMP/Game/Client/Entity/Husks/LeapingHusk.cs:81-86 | "Anticipate" sends Attack and "Cooldown" sends Land, both replayed on that same node with a resume target; "Idle" sends Idle, which has none |
| LeapingHusk.ClipHook | HKMP/Game/Client/Entity/Husks/LeapingHusk.cs:64-77 | Sent exactly for the clips Idle, Walk and Turn; the client plays the same clip back |
| LeapingHusk.Resume | HKMP/Game/Client/Entity/Husks/LeapingHusk.cs:127-138 | Walk, Land -> "Idle"; Attack -> "Launch"; Idle, Turn and every index past Turn force nothing |
| LeapingHusk.Replay | HKMP/Game/Client/Entity/Husks/LeapingHusk.cs:142-182 | Exactly the animations with a client branch replay something; FSM branches run their node's actions on the main FSM; audio stops exactly on Idle and starts exactly on Walk |
| LeapingHusk.ClientInit | HKMP/Game/Client/Entity/Husks/LeapingHusk.cs:95-108 | Deactivates if and only if the state is Dead (1); first effects RemoveAllTransitions(Main), WalkerStop, SetWalkerEnabled(false) |
| LeapingHusk.ReplayedNodeSendsIt | HKMP/Game/Client/Entity/Husks/LeapingHusk.cs:142-182 | The node an animation is replayed on is hooked to send that same animation |
| LeapingHusk.NeverUpdatedResumesLaunch | HKMP/Game/Client/Entity/Husks/LeapingHusk.cs:15 | With no update the stored index is Attack (0), which forces "Launch" |
| LeapingHusk.LeapingHusk.InternalInitializeAsSceneHost | HKMP/Game/Client/Entity/Husks/LeapingHusk.cs:88-94 | Appends exactly [SendStateUpdate(Active), SetWalkerEnabled(true)] |
| LeapingHusk.LeapingHusk.InternalInitializeAsSceneClient | HKMP/Game/Client/Entity/Husks/LeapingHusk.cs:95-108 | Appends exactly ClientInit(stateIndex); the last animation is kept |
| LeapingHusk.LeapingHusk.HealthManagerOnDieHook | HKMP/Game/Client/Entity/Husks/LeapingHusk.cs:112-119 | Runs the base die hook, then sends state Dead (1) |
| LeapingHusk.LeapingHusk.InternalSwitchToSceneHost | HKMP/Game/Client/Entity/Husks/LeapingHusk.cs:121-140 | Appends [RestoreAllTransitions(Main), SetWalkerEnabled(true)], then the SetState of Resume(last animation), if any; the last animation is kept |
| LeapingHusk.LeapingHusk.UpdateAnimation | HKMP/Game/Client/Entity/Husks/LeapingHusk.cs:142-182 | Stores the received index (in range or not) as the last animation and appends the base call, then Replay(index) |
| Squit.Hook | HKMP/Game/Client/Entity/Fliers/Squits/Squit.cs:34-48 | Every sent index has a resume target, and its replay starts on that same node |
| Squit.Resume | HKMP/Game/Client/Entity/Fliers/Squits/Squit.cs:80-118 | Startle -> "Chase Start"; Idle, Stop -> "Idle"; Chase, Chase1, Recover -> "Chase - In Sight"; Chase2 -> "Chase - Out of Sight"; Antic -> "Attack Aim"; CheckDir -> "CheckDir"; L, R -> "Lunging"; Pull -> "Recover"; total over the enum: only indices past Recover force nothing |
| Squit.Replay | HKMP/Game/Client/Entity/Fliers/Squits/Squit.cs:122-196 | Exactly the animations with a client branch replay something; FSM branches run their node's actions on the main FSM |
| Squit.ClientInit | HKMP/Game/Client/Entity/Fliers/Squits/Squit.cs:55-63 | Deactivates if and only if the state is Dead (1); first effects RemoveAllTransitions(Main) |
| Squit.ReplayedNodeSendsIt | HKMP/Game/Client/Entity/Fliers/Squits/Squit.cs:122-196 | The node an animation is replayed on is hooked to send that same animation |
| Squit.NeverUpdatedResumesIdle | HKMP/Game/Client/Entity/Fliers/Squits/Squit.cs:14 | With no update the stored index is Idle (0), which forces "Idle" |
| Squit.LungeReplaysTwoNodes | HKMP/Game/Client/Entity/Fliers/Squits/Squit.cs:173-185 | L and R replay their lunge node and then "Lunging" action 1; every other animation replays one node |
| Squit.CheckDirResumeNameDiffers | HKMP/Game/Client/Entity/Fliers/Squits/Squit.cs:104 | Resuming after CheckDir forces a state spelt "CheckDir", unlike the "Check Dir" node that sends and replays it |
| Squit.Squit.InternalInitializeAsSceneHost | HKMP/Game/Client/Entity/Fliers/Squits/Squit.cs:50-54 | Appends exactly [SendStateUpdate(Active)] |
| Squit.Squit.InternalInitializeAsSceneClient | HKMP/Game/Client/Entity/Fliers/Squits/Squit.cs:55-63 | Appends exactly ClientInit(stateIndex); the last animation is kept |
| Squit.Squit.HealthManagerOnDieHook | HKMP/Game/Client/Entity/Fliers/Squits/Squit.cs:65-72 | Runs the base die hook, then sends state Dead (1) |
| Squit.Squit.InternalSwitchToSceneHost | HKMP/Game/Client/Entity/Fliers/Squits/Squit.cs:74-120 | Appends [RestoreAllTransitions(Main)], then the SetState of Resume(last animation), if any; the last animation is kept |
| Squit.Squit.UpdateAnimation | HKMP/Game/Client/Entity/Fliers/Squits/Squit.cs:122-196 | Stores the received index (in range or not) as the last animation and appends the base call, then Replay(index) |
| WanderingHusk.Hook | HKMP/Game/Client/Entity/Husks/WanderingHusk.cs:81-87 | The lunge nodes are replayed on that same node and have a resume target; "Idle" sends Idle, which has none |
| WanderingHusk.ClipHook | HKMP/Game/Client/Entity/Husks/WanderingHusk.cs:64-77 | Sent exactly for the clips Idle, Walk and Turn; the client plays the same clip back |
| WanderingHusk.Resume | HKMP/Game/Client/Entity/Husks/WanderingHusk.cs:126-140 | Walk, Cooldown -> "Idle"; Anticipate -> "Lunge"; Lunge -> "Cooldown"; Idle, Turn and every index past Turn force nothing |
| WanderingHusk.Replay | HKMP/Game/Client/Entity/Husks/WanderingHusk.cs:144-186 | Exactly the animations with a client branch replay something; FSM branches run their node's actions on the main FSM; audio stops exactly on Idle and starts exactly on Walk |
| WanderingHusk.ClientInit | HKMP/Game/Client/Entity/Husks/WanderingHusk.cs:95-108 | Deactivates if and only if the state is Dead (1); first effects RemoveAllTransitions(Main), WalkerStop, SetWalkerEnabled(false) |
| WanderingHusk.ReplayedNodeSendsIt | HKMP/Game/Client/Entity/Husks/WanderingHusk.cs:144-186 | The node an animation is replayed on is hooked to send that same animation |
| WanderingHusk.NeverUpdatedResumesLunge | HKMP/Game/Client/Entity/Husks/WanderingHusk.cs:15 | With no update the stored index is Anticipate (0), which forces "Lunge" |
| WanderingHusk.WanderingHusk.InternalInitializeAsSceneHost | HKMP/Game/Client/Entity/Husks/WanderingHusk.cs:89-94 | Appends exactly [SendStateUpdate(Active), SetWalkerEnabled(true)] |
| WanderingHusk.WanderingHusk.InternalInitializeAsSceneClient | HKMP/Game/Client/Entity/Husks/WanderingHusk.cs:95-108 | Appends exactly ClientInit(stateIndex); the last animation is kept |
| WanderingHusk.WanderingHusk.HealthManagerOnDieHook | HKMP/Game/Client/Entity/Husks/WanderingHusk.cs:111-118 | Runs the base die hook, then sends state Dead (1) |
| WanderingHusk.WanderingHusk.InternalSwitchToSceneHost | HKMP/Game/Client/Entity/Husks/WanderingHusk.cs:120-142 | Appends [RestoreAllTransitions(Main), SetWalkerEnabled(true)], then the SetState of Resume(last animation), if any; the last animation is kept |
| WanderingHusk.WanderingHusk.UpdateAnimation | HKMP/Game/Client/Entity/Husks/WanderingHusk.cs:144-186 | Stores the received index (in range or not) as the last animation and appends the base call, then Replay(index) |
| AspidMother.Hook | HKMP/Game/Client/Entity/Fliers/Aspids/AspidMother.cs:70-76 | Every node-sent index has a resume target and is replayed on that same node |
| AspidMother.ClipHook | HKMP/Game/Client/Entity/Fliers/Aspids/AspidMother.cs:59-66 | Burst is sent only for the clip "Burst", is replayed by playing that clip and forces no state |
| AspidMother.Resume | HKMP/Game/Client/Entity/Fliers/Aspids/AspidMother.cs:111-125 | DFly -> "Hatched Max Check"; Fire, Idle -> "Distance Fly"; Anticipate -> "Fire"; FireLong, TurnToFly, Burst and every index past Anticipate force nothing |
| AspidMother.Replay | HKMP/Game/Client/Entity/Fliers/Aspids/AspidMother.cs:129-167 | Exactly the animations with a client branch replay something; FireLong, TurnToFly replay nothing; FSM branches run their node's actions on the main FSM |
| AspidMother.ClientInit | HKMP/Game/Client/Entity/Fliers/Aspids/AspidMother.cs:84-94 | Deactivates if and only if the state is Dead (1); first effects SetAnimatorEnabled(false), RemoveAllTransitions(Main) |
| AspidMother.ReplayedNodeSendsIt | HKMP/Game/Client/Entity/Fliers/Aspids/AspidMother.cs:129-167 | The node an animation is replayed on is hooked to send that same animation |
| AspidMother.NeverUpdatedResumesHatchedMaxCheck | HKMP/Game/Client/Entity/Fliers/Aspids/AspidMother.cs:14 | With no update the stored index is DFly (0), which forces "Hatched Max Check" |
| AspidMother.AspidMother.InternalInitializeAsSceneHost | HKMP/Game/Client/Entity/Fliers/Aspids/AspidMother.cs:78-83 | Appends exactly [SendStateUpdate(Active), SetAnimatorEnabled(true)] |
| AspidMother.AspidMother.InternalInitializeAsSceneClient | HKMP/Game/Client/Entity/Fliers/Aspids/AspidMother.cs:84-94 | Appends exactly ClientInit(stateIndex); the last animation is kept |
| AspidMother.AspidMother.HealthManagerOnDieHook | HKMP/Game/Client/Entity/Fliers/Aspids/AspidMother.cs:96-103 | Runs the base die hook, then sends state Dead (1) |
| AspidMother.AspidMother.InternalSwitchToSceneHost | HKMP/Game/Client/Entity/Fliers/Aspids/AspidMother.cs:105-127 | Appends [RestoreAllTransitions(Main), SetAnimatorEnabled(true)], then the SetState of Resume(last animation), if any; the last animation is kept |
| AspidMother.AspidMother.UpdateAnimation | HKMP/Game/Client/Entity/Fliers/Aspids/AspidMother.cs:129-167 | Stores the received index (in range or not) as the last animation and appends the base call, then Replay(index) |
| Baldur.Hook | HKMP/Game/Client/Entity/Baldurs/Baldur.cs:37-48 | Every sent index has a resume target; "Stop", "Start", "Roll R", "Collide Right" and "Rest" are replayed on that same node |
| Baldur.Resume | HKMP/Game/Client/Entity/Baldurs/Baldur.cs:83-106 | Start, LoR, Land -> "Left or right?"; Roll -> "Stop"; Stop -> "Rest"; Idle -> "Idle"; Collide -> "In Air"; total over the enum: only indices past Land force nothing |
| Baldur.Replay | HKMP/Game/Client/Entity/Baldurs/Baldur.cs:110-154 | Exactly the animations with a client branch replay something; FSM branches run their node's actions on the main FSM |
| Baldur.ClientInit | HKMP/Game/Client/Entity/Baldurs/Baldur.cs:56-66 | Deactivates if and only if the state is the literal 1; first effects RemoveAllTransitions(Main) |
| Baldur.ReplayedNodeSendsIt | HKMP/Game/Client/Entity/Baldurs/Baldur.cs:110-154 | The node an animation is replayed on is hooked to send that same animation |
| Baldur.NeverUpdatedResumesIdle | HKMP/Game/Client/Entity/Baldurs/Baldur.cs:15 | With no update the stored index is Idle (0), which forces "Idle" |
| Baldur.SharedHookIndices | HKMP/Game/Client/Entity/Baldurs/Baldur.cs:39-47 | Both roll nodes send Roll, both collide nodes send Collide, "Rest" sends Idle |
| Baldur.LandAndLoRReplayedElsewhere | HKMP/Game/Client/Entity/Baldurs/Baldur.cs:120-138 | Land replays node "Start" (whose hook sends Start); LoR replays "Left or Right?", which no hook uses |
| Baldur.Baldur.InternalInitializeAsSceneHost | HKMP/Game/Client/Entity/Baldurs/Baldur.cs:50-55 | Appends exactly [SendStateUpdate(Active)] |
| Baldur.Baldur.InternalInitializeAsSceneClient | HKMP/Game/Client/Entity/Baldurs/Baldur.cs:56-66 | Appends exactly ClientInit(stateIndex); the last animation is kept |
| Baldur.Baldur.HealthManagerOnDieHook | HKMP/Game/Client/Entity/Baldurs/Baldur.cs:68-75 | Runs the base die hook, then sends state Dead (1) |
| Baldur.Baldur.InternalSwitchToSceneHost | HKMP/Game/Client/Entity/Baldurs/Baldur.cs:77-108 | Appends [RestoreAllTransitions(Main)], then the SetState of Resume(last animation), if any; the last animation is kept |
| Baldur.Baldur.UpdateAnimation | HKMP/Game/Client/Entity/Baldurs/Baldur.cs:110-154 | Stores the received index (in range or not) as the last animation and appends the base call, then Replay(index) |
| Crawlid.ClipHook | HKMP/Game/Client/Entity/Crawlers/Crawlid.cs:59-73 | Sent exactly for the clips "walk", "turn" and "idle"; the client plays the same clip back; only Walk has a resume target |
| Crawlid.Resume | HKMP/Game/Client/Entity/Crawlers/Crawlid.cs:116-121 | Walk -> "Walk"; Turn, Idle and every index past Idle force nothing |
| Crawlid.Replay | HKMP/Game/Client/Entity/Crawlers/Crawlid.cs:125-148 | Each animation plays its same-named clip; other indices replay nothing |
| Crawlid.ClientInit | HKMP/Game/Client/Entity/Crawlers/Crawlid.cs:89-99 | Deactivates if and only if the state is Dead (1); first effects RemoveAllTransitions(Main), SetAnimatorEnabled(false) |
| Crawlid.NeverUpdatedResumesWalk | HKMP/Game/Client/Entity/Crawlers/Crawlid.cs:15 | With no update the stored index is Walk (0), which forces "Walk" |
| Crawlid.Crawlid.InternalInitializeAsSceneHost | HKMP/Game/Client/Entity/Crawlers/Crawlid.cs:82-87 | Appends exactly [SendStateUpdate(Active), SetAnimatorEnabled(true)] |
| Crawlid.Crawlid.InternalInitializeAsSceneClient | HKMP/Game/Client/Entity/Crawlers/Crawlid.cs:89-99 | Appends exactly ClientInit(stateIndex); the last animation is kept |
| Crawlid.Crawlid.HealthManagerOnDieHook | HKMP/Game/Client/Entity/Crawlers/Crawlid.cs:101-108 | Runs the base die hook, then sends state Dead (1) |
| Crawlid.Crawlid.InternalSwitchToSceneHost | HKMP/Game/Client/Entity/Crawlers/Crawlid.cs:110-123 | Appends [RestoreAllTransitions(Main), SetAnimatorEnabled(true)], then the SetState of Resume(last animation), if any; the last animation is kept |
| Crawlid.Crawlid.UpdateAnimation | HKMP/Game/Client/Entity/Crawlers/Crawlid.cs:125-148 | Stores the received index (in range or not) as the last animation and appends the base call, then Replay(index) |
| Vengefly.Hook | HKMP/Game/Client/Entity/Fliers/Vengefly.cs:34-42 | Every sent index has a resume target and is replayed on that same node |
| Vengefly.Resume | HKMP/Game/Client/Entity/Fliers/Vengefly.cs:74-94 | Startle -> "Chase Start"; Idle, Stop -> "Idle"; Chase -> "Chase - In Sight"; Chase1 -> "Chase - Out of Sight"; Chase2 -> "Stop"; total over the enum: only indices past Stop force nothing |
| Vengefly.Replay | HKMP/Game/Client/Entity/Fliers/Vengefly.cs:98-138 | Exactly the animations with a client branch replay something; FSM branches run their node's actions on the main FSM |
| Vengefly.ClientInit | HKMP/Game/Client/Entity/Fliers/Vengefly.cs:49-57 | Deactivates if and only if the state is Dead (1); first effects RemoveAllTransitions(Main) |
| Vengefly.ReplayedNodeSendsIt | HKMP/Game/Client/Entity/Fliers/Vengefly.cs:98-138 | The node an animation is replayed on is hooked to send that same animation |
| Vengefly.NeverUpdatedResumesIdle | HKMP/Game/Client/Entity/Fliers/Vengefly.cs:14 | With no update the stored index is Idle (0), which forces "Idle" |
| Vengefly.Vengefly.InternalInitializeAsSceneHost | HKMP/Game/Client/Entity/Fliers/Vengefly.cs:44-48 | Appends exactly [SendStateUpdate(Active)] |
| Vengefly.Vengefly.InternalInitializeAsSceneClient | HKMP/Game/Client/Entity/Fliers/Vengefly.cs:49-57 | Appends exactly ClientInit(stateIndex); the last animation is kept |
| Vengefly.Vengefly.HealthManagerOnDieHook | HKMP/Game/Client/Entity/Fliers/Vengefly.cs:59-66 | Runs the base die hook, then sends state Dead (1) |
| Vengefly.Vengefly.InternalSwitchToSceneHost | HKMP/Game/Client/Entity/Fliers/Vengefly.cs:68-96 | Appends [RestoreAllTransitions(Main)], then the SetState of Resume(last animation), if any; the last animation is kept |
| Vengefly.Vengefly.UpdateAnimation | HKMP/Game/Client/Entity/Fliers/Vengefly.cs:98-138 | Stores the received index (in range or not) as the last animation and appends the base call, then Replay(index) |
| Durandoo.Hook | HKMP/Game/Client/Entity/Fliers/Durandi/Durandoo.cs:34-40 | Every sent index has a resume target; every node but "Blocked Down" is replayed on that same node |
| Durandoo.Resume | HKMP/Game/Client/Entity/Fliers/Durandi/Durandoo.cs:72-86 | StartWalk, Blocked, Walk -> "Walk"; Turn -> "Flip"; total over the enum: only indices past Turn force nothing |
| Durandoo.Replay | HKMP/Game/Client/Entity/Fliers/Durandi/Durandoo.cs:90-120 | Exactly the animations with a client branch replay something; FSM branches run their node's actions on the main FSM |
| Durandoo.ClientInit | HKMP/Game/Client/Entity/Fliers/Durandi/Durandoo.cs:47-55 | Deactivates if and only if the state is Dead (1); first effects RemoveAllTransitions(Main) |
| Durandoo.ReplayedNodeSendsIt | HKMP/Game/Client/Entity/Fliers/Durandi/Durandoo.cs:90-120 | The node an animation is replayed on is hooked to send that same animation |
| Durandoo.NeverUpdatedResumesWalk | HKMP/Game/Client/Entity/Fliers/Durandi/Durandoo.cs:14 | With no update the stored index is StartWalk (0), which forces "Walk" |
| Durandoo.BlockedReplayedElsewhere | HKMP/Game/Client/Entity/Fliers/Durandi/Durandoo.cs:37 | "Blocked Down" sends Blocked; the client replays it on node "Blocked", which sends nothing |
| Durandoo.Durandoo.InternalInitializeAsSceneHost | HKMP/Game/Client/Entity/Fliers/Durandi/Durandoo.cs:42-46 | Appends exactly [SendStateUpdate(Active)] |
| Durandoo.Durandoo.InternalInitializeAsSceneClient | HKMP/Game/Client/Entity/Fliers/Durandi/Durandoo.cs:47-55 | Appends exactly ClientInit(stateIndex); the last animation is kept |
| Durandoo.Durandoo.HealthManagerOnDieHook | HKMP/Game/Client/Entity/Fliers/Durandi/Durandoo.cs:57-64 | Runs the base die hook, then sends state Dead (1) |
| Durandoo.Durandoo.InternalSwitchToSceneHost | HKMP/Game/Client/Entity/Fliers/Durandi/Durandoo.cs:66-88 | Appends [RestoreAllTransitions(Main)], then the SetState of Resume(last animation), if any; the last animation is kept |
| Durandoo.Durandoo.UpdateAnimation | HKMP/Game/Client/Entity/Fliers/Durandi/Durandoo.cs:90-120 | Stores the received index (in range or not) as the last animation and appends the base call, then Replay(index) |
| Gulka.Hook | HKMP/Game/Client/Entity/Traps/Gulka.cs:34-40 | Every sent index has a resume target and is replayed on that same node ("Idle Anim" sends Idle, "Shoot Antic" sends Antic) |
| Gulka.Resume | HKMP/Game/Client/Entity/Traps/Gulka.cs:72-86 | Wake, Fire -> "Idle Anim"; Idle -> "Check"; Antic -> "Fire"; total over the enum: only indices past Fire force nothing |
| Gulka.Replay | HKMP/Game/Client/Entity/Traps/Gulka.cs:90-120 | Exactly the animations with a client branch replay something; FSM branches run their node's actions on the main FSM |
| Gulka.ClientInit | HKMP/Game/Client/Entity/Traps/Gulka.cs:47-55 | Deactivates if and only if the state is Dead (1); first effects RemoveAllTransitions(Main) |
| Gulka.ReplayedNodeSendsIt | HKMP/Game/Client/Entity/Traps/Gulka.cs:90-120 | The node an animation is replayed on is hooked to send that same animation |
| Gulka.NeverUpdatedResumesCheck | HKMP/Game/Client/Entity/Traps/Gulka.cs:14 | With no update the stored index is Idle (0), which forces "Check" |
| Gulka.Gulka.InternalInitializeAsSceneHost | HKMP/Game/Client/Entity/Traps/Gulka.cs:42-46 | Appends exactly [SendStateUpdate(Active)] |
| Gulka.Gulka.InternalInitializeAsSceneClient | HKMP/Game/Client/Entity/Traps/Gulka.cs:47-55 | Appends exactly ClientInit(stateIndex); the last animation is kept |
| Gulka.Gulka.HealthManagerOnDieHook | HKMP/Game/Client/Entity/Traps/Gulka.cs:57-64 | Runs the base die hook, then sends state Dead (1) |
| Gulka.Gulka.InternalSwitchToSceneHost | HKMP/Game/Client/Entity/Traps/Gulka.cs:66-88 | Appends [RestoreAllTransitions(Main)], then the SetState of Resume(last animation), if any; the last animation is kept |
| Gulka.Gulka.UpdateAnimation | HKMP/Game/Client/Entity/Traps/Gulka.cs:90-120 | Stores the received index (in range or not) as the last animation and appends the base call, then Replay(index) |
| FoolEater.Hook | HKMP/Game/Client/Entity/Traps/FoolEater.cs:34-39 | Every sent index has a resume target and is replayed on that same node |
| FoolEater.Resume | HKMP/Game/Client/Entity/Traps/FoolEater.cs:74-85 | Ready -> "Snap"; Snap -> "Retract"; Retract -> "Cooldown"; total over the enum: only indices past Retract force nothing |
| FoolEater.Replay | HKMP/Game/Client/Entity/Traps/FoolEater.cs:89-113 | Ready runs actions 1 and 2 of "Ready", Snap actions 1 and 2 of "Snap", Retract action 1 of "Retract"; other indices replay nothing |
| FoolEater.ClientInit | HKMP/Game/Client/Entity/Traps/FoolEater.cs:47-57 | Deactivates if and only if the state is the literal 1; first effects RemoveAllTransitions(Main) |
| FoolEater.ReplayedNodeSendsIt | HKMP/Game/Client/Entity/Traps/FoolEater.cs:89-113 | The node an animation is replayed on is hooked to send that same animation |
| FoolEater.NeverUpdatedResumesSnap | HKMP/Game/Client/Entity/Traps/FoolEater.cs:15 | With no update the stored index is Ready (0), which forces "Snap" |
| FoolEater.FoolEater.InternalInitializeAsSceneHost | HKMP/Game/Client/Entity/Traps/FoolEater.cs:41-46 | Appends exactly [SendStateUpdate(Active)] |
| FoolEater.FoolEater.InternalInitializeAsSceneClient | HKMP/Game/Client/Entity/Traps/FoolEater.cs:47-57 | Appends exactly ClientInit(stateIndex); the last animation is kept |
| FoolEater.FoolEater.HealthManagerOnDieHook | HKMP/Game/Client/Entity/Traps/FoolEater.cs:59-66 | Runs the base die hook, then sends state Dead (1) |
| FoolEater.FoolEater.InternalSwitchToSceneHost | HKMP/Game/Client/Entity/Traps/FoolEater.cs:68-87 | Appends [RestoreAllTransitions(Main)], then the SetState of Resume(last animation), if any; the last animation is kept |
| FoolEater.FoolEater.UpdateAnimation | HKMP/Game/Client/Entity/Traps/FoolEater.cs:89-113 | Stores the received index (in range or not) as the last animation and appends the base call, then Replay(index) |
| Duranda.Hook | HKMP/Game/Client/Entity/Fliers/Durandi/Duranda.cs:34-38 | Every sent index has a resume target and is replayed on that same node |
| Duranda.Resume | HKMP/Game/Client/Entity/Fliers/Durandi/Duranda.cs:70-78 | Idle, Bounce -> "Idle"; total over the enum: only indices past Bounce force nothing |
| Duranda.Replay | HKMP/Game/Client/Entity/Fliers/Durandi/Duranda.cs:82-102 | Exactly the animations with a client branch replay something; FSM branches run their node's actions on the main FSM |
| Duranda.ClientInit | HKMP/Game/Client/Entity/Fliers/Durandi/Duranda.cs:45-53 | Deactivates if and only if the state is Dead (1); first effects RemoveAllTransitions(Main) |
| Duranda.ReplayedNodeSendsIt | HKMP/Game/Client/Entity/Fliers/Durandi/Duranda.cs:82-102 | The node an animation is replayed on is hooked to send that same animation |
| Duranda.NeverUpdatedResumesIdle | HKMP/Game/Client/Entity/Fliers/Durandi/Duranda.cs:115 | With no update the stored index is Idle (0), which forces "Idle" |
| Duranda.EveryIndexResumesIdle | HKMP/Game/Client/Entity/Fliers/Durandi/Duranda.cs:70-78 | Both Idle and Bounce resume to "Idle" |
| Duranda.Duranda.InternalInitializeAsSceneHost | HKMP/Game/Client/Entity/Fliers/Durandi/Duranda.cs:40-44 | Appends exactly [SendStateUpdate(Active)] |
| Duranda.Duranda.InternalInitializeAsSceneClient | HKMP/Game/Client/Entity/Fliers/Durandi/Duranda.cs:45-53 | Appends exactly ClientInit(stateIndex); the last animation is kept |
| Duranda.Duranda.HealthManagerOnDieHook | HKMP/Game/Client/Entity/Fliers/Durandi/Duranda.cs:55-62 | Runs the base die hook, then sends state Dead (1) |
| Duranda.Duranda.InternalSwitchToSceneHost | HKMP/Game/Client/Entity/Fliers/Durandi/Duranda.cs:64-80 | Appends [RestoreAllTransitions(Main)], then the SetState of Resume(last animation), if any; the last animation is kept |
| Duranda.Duranda.UpdateAnimation | HKMP/Game/Client/Entity/Fliers/Durandi/Duranda.cs:82-102 | Stores the received index (in range or not) as the last animation and appends the base call, then Replay(index) |
| Obble.Hook | HKMP/Game/Client/Entity/Fliers/Obbles/Obble.cs:34-38 | Every sent index has a resume target and is replayed on that same node |
| Obble.Resume | HKMP/Game/Client/Entity/Fliers/Obbles/Obble.cs:70-78 | Attack -> "CD"; CD -> "Wait"; total over the enum: only indices past CD force nothing |
| Obble.Replay | HKMP/Game/Client/Entity/Fliers/Obbles/Obble.cs:82-102 | Attack runs actions 2-5 of "Attack" and CD action 1 of "CD"; other indices replay nothing |
| Obble.ClientInit | HKMP/Game/Client/Entity/Fliers/Obbles/Obble.cs:45-53 | Deactivates if and only if the state is Dead (1); first effects RemoveAllTransitions(Main) |
| Obble.ReplayedNodeSendsIt | HKMP/Game/Client/Entity/Fliers/Obbles/Obble.cs:82-102 | The node an animation is replayed on is hooked to send that same animation |
| Obble.NeverUpdatedResumesCD | HKMP/Game/Client/Entity/Fliers/Obbles/Obble.cs:14 | With no update the stored index is Attack (0), which forces "CD" |
| Obble.Obble.InternalInitializeAsSceneHost | HKMP/Game/Client/Entity/Fliers/Obbles/Obble.cs:40-44 | Appends exactly [SendStateUpdate(Active)] |
| Obble.Obble.InternalInitializeAsSceneClient | HKMP/Game/Client/Entity/Fliers/Obbles/Obble.cs:45-53 | Appends exactly ClientInit(stateIndex); the last animation is kept |
| Obble.Obble.HealthManagerOnDieHook | HKMP/Game/Client/Entity/Fliers/Obbles/Obble.cs:55-62 | Runs the base die hook, then sends state Dead (1) |
| Obble.Obble.InternalSwitchToSceneHost | HKMP/Game/Client/Entity/Fliers/Obbles/Obble.cs:64-80 | Appends [RestoreAllTransitions(Main)], then the SetState of Resume(last animation), if any; the last animation is kept |
| Obble.Obble.UpdateAnimation | HKMP/Game/Client/Entity/Fliers/Obbles/Obble.cs:82-102 | Stores the received index (in range or not) as the last animation and appends the base call, then Replay(index) |
| Tiktik.ClipHook | HKMP/Game/Client/Entity/Crawlers/Tiktik.cs:57-63 | Only the clip named "Walk" sends an index, Walk, which has a replay |
| Tiktik.Replay | HKMP/Game/Client/Entity/Crawlers/Tiktik.cs:111-115 | Only Walk replays anything, and only clip plays |
| Tiktik.ClientInit | HKMP/Game/Client/Entity/Crawlers/Tiktik.cs:79-83 | Deactivates if and only if Dead; removes no transitions and sends no state |
| Tiktik.WalkClipNamesDiffer | HKMP/Game/Client/Entity/Crawlers/Tiktik.cs:57-116 | The host sends for clip "Walk" while the client plays "walk": the replayed clip is not the one that was reported |
| Tiktik.Tiktik.InternalInitializeAsSceneHost | HKMP/Game/Client/Entity/Crawlers/Tiktik.cs:67-73 | Sends Active and enables the climber and its animator |
| Tiktik.Tiktik.InternalInitializeAsSceneClient | HKMP/Game/Client/Entity/Crawlers/Tiktik.cs:74-84 | Disables the climber and its animator, then appends ClientInit(stateIndex) |
| Tiktik.Tiktik.HealthManagerOnDieHook | HKMP/Game/Client/Entity/Crawlers/Tiktik.cs:86-93 | Runs the base die hook, then sends Dead |
| Tiktik.Tiktik.InternalSwitchToSceneHost | HKMP/Game/Client/Entity/Crawlers/Tiktik.cs:95-100 | Forces no state whatever the last animation was: only enables the climber and its animator, effects unchanged |
| Tiktik.Tiktik.UpdateAnimation | HKMP/Game/Client/Entity/Crawlers/Tiktik.cs:102-116 | Stores every index and appends the base call, then Replay(index); the components are untouched |
| PlayerTeamUpdate.TeamByte | HKMPShared/Networking/Packet/Data/PlayerTeamUpdate.cs:18 | The cast keeps a team below 256 and otherwise agrees with it modulo 256 |
| PlayerTeamUpdate.Matched | HKMPShared/Networking/Packet/Data/PlayerTeamUpdate.cs:21-25 | How many reads of the given kinds succeed before the first one fails |
| PlayerTeamUpdate.EncodeClient | HKMPShared/Networking/Packet/Data/PlayerTeamUpdate.cs:15-19 | Three values of the kinds ushort, string, byte |
| PlayerTeamUpdate.DecodeClient | HKMPShared/Networking/Packet/Data/PlayerTeamUpdate.cs:21-25 | Succeeds iff all three reads succeed, and then the unread values are the encoding of what was read followed by the rest |
| PlayerTeamUpdate.EncodeServer | HKMPShared/Networking/Packet/Data/PlayerTeamUpdate.cs:35-37 | A single byte value |
| PlayerTeamUpdate.DecodeServer | HKMPShared/Networking/Packet/Data/PlayerTeamUpdate.cs:39-41 | Succeeds iff the byte read succeeds, and then the unread values are the encoding of the team read followed by the rest |
| PlayerTeamUpdate.ClientRoundTrip | HKMPShared/Networking/Packet/Data/PlayerTeamUpdate.cs:15-25 | Reading what the client variant wrote restores Id, Username and Team for every team below 256, and leaves what followed unread |
| PlayerTeamUpdate.ClientTeamTruncated | HKMPShared/Networking/Packet/Data/PlayerTeamUpdate.cs:18-24 | A team of 256 or more, or a negative one, comes back as its value modulo 256 |
| PlayerTeamUpdate.ServerRoundTrip | HKMPShared/Networking/Packet/Data/PlayerTeamUpdate.cs:35-41 | Reading what the server variant wrote restores Team for every team below 256 |
| PlayerTeamUpdate.Packet.Unread | HKMPShared/Networking/Packet/Data/PlayerTeamUpdate.cs:21-25 | The unread values: as many as were written past the read position |
| PlayerTeamUpdate.Packet.Write | HKMPShared/Networking/Packet/Data/PlayerTeamUpdate.cs:16-18 | Appends one value and moves no read position |
| PlayerTeamUpdate.Packet.Read | HKMPShared/Networking/Packet/Data/PlayerTeamUpdate.cs:22-24 | Takes the next value iff it has the asked kind; otherwise reads nothing |
| PlayerTeamUpdate.ClientPlayerTeamUpdate.constructor | HKMPShared/Networking/Packet/Data/PlayerTeamUpdate.cs:10-13 | A new client update is reliable and drops an older queued copy |
| PlayerTeamUpdate.ClientPlayerTeamUpdate.WriteData | HKMPShared/Networking/Packet/Data/PlayerTeamUpdate.cs:15-19 | Appends Id, then Username, then Team as a byte |
| PlayerTeamUpdate.ClientPlayerTeamUpdate.ReadData | HKMPShared/Networking/Packet/Data/PlayerTeamUpdate.cs:21-25 | Reads Id, Username, Team in that order; succeeds iff all three reads do; a failed read keeps the fields read before it and leaves the others unchanged |
| PlayerTeamUpdate.ServerPlayerTeamUpdate.IsReliable | HKMPShared/Networking/Packet/Data/PlayerTeamUpdate.cs:29 | Always reliable |
| PlayerTeamUpdate.ServerPlayerTeamUpdate.DropReliableDataIfNewerExists | HKMPShared/Networking/Packet/Data/PlayerTeamUpdate.cs:31 | Always drops an older queued copy |
| PlayerTeamUpdate.ServerPlayerTeamUpdate.WriteData | HKMPShared/Networking/Packet/Data/PlayerTeamUpdate.cs:35-37 | Appends Team as a byte |
| PlayerTeamUpdate.ServerPlayerTeamUpdate.ReadData | HKMPShared/Networking/Packet/Data/PlayerTeamUpdate.cs:39-41 | Reads Team as a byte; a failed read leaves Team and the packet as they were |
| PlayerTeamUpdate.ClientWriteThenRead | HKMPShared/Networking/Packet/Data/PlayerTeamUpdate.cs:10-25 | Writing an update into a packet and reading it into a new object restores Id, Username and Team (below 256), with both flags set |
| PlayerTeamUpdate.ServerWriteThenRead | HKMPShared/Networking/Packet/Data/PlayerTeamUpdate.cs:35-41 | Writing a server update and reading it back into a new object restores Team (below 256) |

## Left out

- Engine calls are not modelled; each is recorded as a trace entry only. This covers:
  - `ExecuteActions`, `SetState`, removing and restoring transitions, `SetActive`;
  - walker, climber and animator enabling;
  - audio and sprite clips.
- The tk2d first-frame `triggerEvent` loops in the enemy constructors are not
  modelled. They only make every clip report its start to the clip callbacks, which
  are modelled as `ClipHook`.
- The host-side `SendStateUpdate` calls made inside some node hooks are not
  modelled. `Hook` models only the animation updates (index and info) a node sends, in order.
- The Battle Gate and Mantis Lord registration in the scene-loaded handler is not
  modelled (object lookups by name and tag, and main-thread scheduling). Only
  `InitializeEntity`, which it calls, is modelled.
- Hook subscription in the entity manager's constructor and all logging are not
  modelled; they have no behaviour to model.
- `MossCharger` (the class in `Chargers/MossCharger.cs`) is modelled as written, but
  the entity manager never builds it: its "Mega Moss Charger" rule registers under
  `EntityType.MossCharger` while constructing `MassiveMossCharger`, a class that is
  not part of this model. The registry therefore never holds the modelled class.
- Gruzzer is not modelled. It has no animations to reconcile, and its lifecycle is
  that of the modelled enemies.
- The base classes `HealthManagedEntity` and `Entity`, `NetClient`, `Packet`'s byte
  layout and `EntityUpdate`'s serialisation are not part of this model. Their effects
  are trace entries: the base `UpdateAnimation` and die hook, state updates, and
  typed packet values.
- `EntityNames.TypeOf` and `EntityNames.Code` use the enum's declaration order. The
  numeric values of `EntityType` are not part of this model; only that the cast is
  one-to-one is used. The enum's `None` member and the members named only by
  commented-out rules (`Hornet1`, `VengeflyKing`) are left out: nothing is ever
  registered under them, so a byte naming one finds nothing either way.
- Dictionary enumeration order is modelled as insertion order, with an overwritten
  key keeping its slot. This is what .NET's `Dictionary` does when nothing is ever
  removed from it, but the language does not promise it.
- Positions are opaque pairs of reals that are only passed along; floating point is
  not modelled.
- `Strings.TryParseByte` accepts optional white space, an optional sign and decimal
  digits. Culture-specific digits and group separators are not modelled.
- `ExecuteActions(node)` with no action indices (Goam) is modelled as running the
  node with an empty index list.
- `PlayerTeamUpdate.ClientPlayerTeamUpdate.constructor` starts with an empty username.
  The C# default is null, and what `Packet.Write` does with null is not part of this
  model.
- The `Id` property comes from `GenericClientData` and the `Team` enum from another
  file; neither file is part of this model. `Id` is modelled as an unsigned 16-bit
  field and `Team` as the enum's underlying integer.
- `PlayerTeamUpdate.Packet.Read`: a read of the wrong kind or past the end fails and
  reads nothing. The real packet reads raw bytes, so a wrong-kind read would
  misinterpret them instead. That cannot be expressed over a queue of typed values.
- `Tiktik.Tiktik.constructor` starts with the climber and its animator enabled. That
  is the components' state in the scene before the entity touches them, and it is
  not visible in the source.
- A C# exception inside a replay is modelled only for Brooding Mawlek's Wake, the
  one replay that indexes into the received info. It is reported by the `thrown`
  result.
