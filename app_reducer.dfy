/** The application's settings reducer: a pure switch over the action type
    that replaces one field of the settings record with the payload. */
module AppReducer {
  import opened Options

  /** The settings record. `windowSize` is optional because the provider's
      initial state does not set it. */
  datatype AppState = AppState(bgPath: string, musicPath: string, vrmPath: string, windowSize: Option<string>)

  /** An action: its `type` and its payload. */
  datatype AppAction = AppAction(actionType: string, payload: string)

  /** The fields of the record, as a reference for what an action sets. */
  datatype Field = BgPath | MusicPath | VrmPath | WindowSize

  /** The provider's initial state: three empty paths, no window size. */
  function InitialState(): (r: AppState)
    ensures forall f :: f != WindowSize ==> Get(r, f) == Some("")
    ensures Get(r, WindowSize) == None
  {
    AppState("", "", "", None)
  }

  /** The field an action type sets, if the reducer recognises it. */
  function Target(actionType: string): (r: Option<Field>)
    ensures r == Some(BgPath) <==> actionType == "SET_BG_PATH"
    ensures r == Some(MusicPath) <==> actionType == "SET_MUSIC_PATH"
    ensures r == Some(VrmPath) <==> actionType == "SET_VRM_PATH"
    ensures r == Some(WindowSize) <==> actionType == "SET_WINDOW_SIZE"
  {
    if actionType == "SET_BG_PATH" then Some(BgPath)
    else if actionType == "SET_MUSIC_PATH" then Some(MusicPath)
    else if actionType == "SET_VRM_PATH" then Some(VrmPath)
    else if actionType == "SET_WINDOW_SIZE" then Some(WindowSize)
    else None
  }

  /** A field's value; `None` for a window size that was never set. */
  function Get(s: AppState, f: Field): Option<string>
  {
    match f
    case BgPath => Some(s.bgPath)
    case MusicPath => Some(s.musicPath)
    case VrmPath => Some(s.vrmPath)
    case WindowSize => s.windowSize
  }

  /** `AppReducer(state, action)`. */
  function Reduce(state: AppState, action: AppAction): (r: AppState)
    ensures forall f :: Get(r, f) == if Target(action.actionType) == Some(f) then Some(action.payload) else Get(state, f)
  {
    match action.actionType
    case "SET_BG_PATH" => state.(bgPath := action.payload)
    case "SET_MUSIC_PATH" => state.(musicPath := action.payload)
    case "SET_VRM_PATH" => state.(vrmPath := action.payload)
    case "SET_WINDOW_SIZE" => state.(windowSize := Some(action.payload))
    case _ => state
  }

  /** Two records with the same value in every field are the same record. */
  lemma FieldsDetermineState(s: AppState, t: AppState)
    requires forall f :: Get(s, f) == Get(t, f)
    ensures s == t
  {
    assert Get(s, BgPath) == Get(t, BgPath);
    assert Get(s, MusicPath) == Get(t, MusicPath);
    assert Get(s, VrmPath) == Get(t, VrmPath);
    assert Get(s, WindowSize) == Get(t, WindowSize);
  }

  /** Each recognised action sets its field to the payload and leaves every other field as it was. */
  lemma SetsOnlyItsField(state: AppState, action: AppAction, f: Field)
    requires Target(action.actionType) == Some(f)
    ensures Get(Reduce(state, action), f) == Some(action.payload)
    ensures forall g :: g != f ==> Get(Reduce(state, action), g) == Get(state, g)
  {
  }

  /** The four action types name four different fields. */
  lemma TargetsDistinct()
    ensures Target("SET_BG_PATH") == Some(BgPath)
    ensures Target("SET_MUSIC_PATH") == Some(MusicPath)
    ensures Target("SET_VRM_PATH") == Some(VrmPath)
    ensures Target("SET_WINDOW_SIZE") == Some(WindowSize)
  {
  }

  /** An action of any other type returns the state unchanged. */
  lemma UnknownActionIgnored(state: AppState, action: AppAction)
    requires Target(action.actionType) == None
    ensures Reduce(state, action) == state
  {
    FieldsDetermineState(Reduce(state, action), state);
  }

  /** Applying the same action twice gives the state applying it once gives. */
  lemma Idempotent(state: AppState, action: AppAction)
    ensures Reduce(Reduce(state, action), action) == Reduce(state, action)
  {
    var once := Reduce(state, action);
    FieldsDetermineState(Reduce(once, action), once);
  }

  /** Two actions that set different fields commute. */
  lemma DifferentFieldsCommute(state: AppState, a: AppAction, b: AppAction)
    requires Target(a.actionType) != Target(b.actionType)
    ensures Reduce(Reduce(state, a), b) == Reduce(Reduce(state, b), a)
  {
    FieldsDetermineState(Reduce(Reduce(state, a), b), Reduce(Reduce(state, b), a));
  }

  /** Of two actions that set the same field, the later one wins. */
  lemma LastWriteWins(state: AppState, a: AppAction, b: AppAction)
    requires Target(a.actionType) == Target(b.actionType)
    ensures Reduce(Reduce(state, a), b) == Reduce(state, b)
  {
    FieldsDetermineState(Reduce(Reduce(state, a), b), Reduce(state, b));
  }
}
