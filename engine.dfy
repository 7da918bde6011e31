/**
 * The engine as the plugin sees it: actors, races, keywords, forms and the
 * per-tick facts (player singleton, camera, the answer of the impulse
 * primitive). Everything here is data handed in by the host; nothing is
 * computed by the plugin.
 */
module Engine {
  import opened Wrappers

  const U32_LIMIT: nat := 0x1_0000_0000

  /** A 32-bit form identifier; 0 is the engine's "no form". */
  type FormID = n: nat | n < U32_LIMIT

  datatype Pos = Pos(x: real, y: real, z: real)

  /** A race record: its own form id and the keywords it carries. */
  datatype Race = Race(formID: FormID, keywords: set<FormID>)

  /**
   * An actor at one moment. `ref` is its identity (the engine pointer), so two
   * resolved actors are "the same actor" exactly when their refs agree.
   */
  datatype Actor = Actor(ref: nat, race: Option<Race>, keywords: set<FormID>, dead: bool, pos: Pos)

  /**
   * The five actor-type keywords looked up once at start-up; a lookup that
   * failed leaves the slot empty (a null keyword pointer).
   */
  datatype KeywordCache = KeywordCache(
    npc: Option<FormID>,
    undead: Option<FormID>,
    dragon: Option<FormID>,
    giant: Option<FormID>,
    dwarvenAuto: Option<FormID>)

  /** The engine's weapon animation types, in their engine order. */
  datatype WeaponType =
    | HandToHandMelee | OneHandSword | OneHandDagger | OneHandAxe | OneHandMace
    | TwoHandSword | TwoHandAxe | Bow | Staff | Crossbow

  datatype Weapon = Weapon(formID: FormID, weaponType: WeaponType)

  /** What a form id resolves to, as far as the plugin distinguishes forms. */
  datatype Form = WeaponForm(weapon: Weapon) | MagicItemForm | OtherForm

  /** `TESForm::LookupByID`: the form registered under `id`, if any. */
  function LookupByID(forms: map<FormID, Form>, id: FormID): (r: Option<Form>)
    ensures r.Some? <==> id in forms
    ensures r.Some? ==> r.value == forms[id]
  {
    if id in forms then Some(forms[id]) else None
  }

  /**
   * The data handler singleton, if the engine has one: it turns a plugin file
   * name and a file-local id into a load-order-aware form id (0 on failure).
   */
  datatype DataHandler = NoDataHandler | DataHandler(lookupFormID: (FormID, string) -> FormID)

  /** The state of the first-person camera singleton. */
  datatype Camera = Camera(firstPerson: bool)

  /** A weak actor handle; it resolves through the world of the current tick. */
  type Handle = nat

  /**
   * The world one deferred task sees when it runs.
   *   actors          - live handles and what they resolve to
   *   player          - ref of the player singleton (None: no player)
   *   camera          - the camera singleton (None: not available)
   *   keywords        - the start-up keyword cache
   *   sqrt            - the host's square root (floating-point numerics)
   *   currentAccepted - what the impulse primitive answers in this tick
   */
  datatype World = World(
    actors: map<Handle, Actor>,
    player: Option<nat>,
    camera: Option<Camera>,
    keywords: KeywordCache,
    sqrt: real -> real,
    currentAccepted: bool)

  /** `ActorHandle::get`: the actor behind `h`, or None once it is gone. */
  function Resolve(w: World, h: Handle): (r: Option<Actor>)
    ensures r.Some? <==> h in w.actors
    ensures r.Some? ==> r.value == w.actors[h]
  {
    if h in w.actors then Some(w.actors[h]) else None
  }
}
