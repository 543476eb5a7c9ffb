/**
  The state of the live-commerce control panel (src/App.tsx and the types
  of src/types.ts): `appReducer`, a total function from a state and an
  action to the next state; the stream timer's `h:m:s` rendering; and the
  comment and product handlers, which compute a new list and dispatch it
  with `SET_STATE`.

  JavaScript numbers used only as data (prices, volumes, audio levels) are
  `real`; identifiers and counters are `int`.  A comment's icon is a React
  element and is left out.
*/
module AppState {
  import opened Wrappers
  import opened Text

  datatype ObsStatus = Disconnected | Connecting | Connected | Failed
  datatype RightTab = CommentsTab | AnalyticsTab | SettingsTab | ChannelsTab
  datatype Category = General | Featured | Sale
  datatype ChannelStatus = Online | Offline

  datatype Product = Product(id: int, name: string, price: real, category: Category, icon: string)
  /** `Omit<Product, 'id'>`: what the product form submits. */
  datatype ProductFields = ProductFields(name: string, price: real, category: Category, icon: string)
  datatype Comment = Comment(id: int, platform: string, user: string, text: string, color: string)
  datatype Analytics = Analytics(totalViewers: int, peakViewers: int, totalComments: int)
  datatype ObsScene = ObsScene(sceneName: string)
  datatype ObsSource = ObsSource(sceneItemId: int, sourceName: string, sceneItemEnabled: bool)
  datatype ObsAudioInput = ObsAudioInput(inputName: string, inputMuted: bool, inputVolumeDb: real, inputLevels: seq<seq<real>>)
  /** `Omit<OBSAudioInput, 'inputLevels'>`, as `SET_OBS_DATA` carries it. */
  datatype AudioInputInfo = AudioInputInfo(inputName: string, inputMuted: bool, inputVolumeDb: real)
  datatype RestreamChannel = RestreamChannel(
    id: int, name: string, platform: string, status: ChannelStatus, enabled: bool, streamingPlatformId: int,
    url: Option<string>, identifier: Option<string>, embedUrl: Option<string>, displayName: Option<string>,
    privacy: Option<string>, isPrimary: Option<bool>, streamUrl: string)

  datatype AppState = AppState(
    obsStatus: ObsStatus, isStreaming: bool, streamTime: string, viewerCount: int,
    products: seq<Product>, selectedProductId: Option<int>, comments: seq<Comment>, analytics: Analytics,
    runningText: string, streamTitle: string, activeRightTab: RightTab, overlayProduct: Option<Product>,
    scenes: seq<ObsScene>, currentSceneName: Option<string>, sources: seq<ObsSource>,
    audioInputs: seq<ObsAudioInput>, restreamChannels: seq<RestreamChannel>)

  /** `Partial<AppState>`: a field is present exactly when it is `Some`. */
  datatype StatePatch = StatePatch(
    obsStatus: Option<ObsStatus>, isStreaming: Option<bool>, streamTime: Option<string>, viewerCount: Option<int>,
    products: Option<seq<Product>>, selectedProductId: Option<Option<int>>, comments: Option<seq<Comment>>,
    analytics: Option<Analytics>, runningText: Option<string>, streamTitle: Option<string>,
    activeRightTab: Option<RightTab>, overlayProduct: Option<Option<Product>>, scenes: Option<seq<ObsScene>>,
    currentSceneName: Option<Option<string>>, sources: Option<seq<ObsSource>>,
    audioInputs: Option<seq<ObsAudioInput>>, restreamChannels: Option<seq<RestreamChannel>>)

  const NoPatch: StatePatch :=
    StatePatch(None, None, None, None, None, None, None, None, None, None, None, None, None, None, None, None, None)

  datatype Action =
    | SetState(patch: StatePatch)
    | SetObsStatus(status: ObsStatus)
    | SetStreamState(streaming: bool)
    | UpdateTimer(time: string)
    | ResetObsData
    | SetObsData(newScenes: seq<ObsScene>, newSceneName: string, newSources: seq<ObsSource>, newInputs: seq<AudioInputInfo>)
    | UpdateSourceVisibility(sceneItemId: int, sceneItemEnabled: bool)
    | UpdateMuteState(muteName: string, inputMuted: bool)
    | SetCurrentScene(sceneName: string)
    | UpdateAudioLevels(levelName: string, levels: seq<seq<real>>)
    | SetRestreamChannels(channels: seq<RestreamChannel>)
    | UpdateRestreamChannelStatus(channelId: int, enabled: bool)
      /** An action of a type the reducer does not name. */
    | OtherAction

  function InitialState(): (s: AppState)
    ensures s.products == [] && s.comments == [] && s.analytics.totalComments == 0 && s.streamTime == "00:00:00"
  {
    AppState(Disconnected, false, "00:00:00", 0, [], None, [], Analytics(0, 0, 0),
             "\U{1F525} \U{0E42}\U{0E1B}\U{0E23}\U{0E42}\U{0E21}\U{0E0A}\U{0E31}\U{0E48}\U{0E19}\U{0E1E}\U{0E34}\U{0E40}\U{0E28}\U{0E29}! ",
             "", CommentsTab, None, [], None, [], [], [])
  }

  /** `{ ...state, ...payload }` */
  function Apply(s: AppState, p: StatePatch): AppState {
    AppState(
      GetOr(p.obsStatus, s.obsStatus), GetOr(p.isStreaming, s.isStreaming), GetOr(p.streamTime, s.streamTime),
      GetOr(p.viewerCount, s.viewerCount), GetOr(p.products, s.products), GetOr(p.selectedProductId, s.selectedProductId),
      GetOr(p.comments, s.comments), GetOr(p.analytics, s.analytics), GetOr(p.runningText, s.runningText),
      GetOr(p.streamTitle, s.streamTitle), GetOr(p.activeRightTab, s.activeRightTab),
      GetOr(p.overlayProduct, s.overlayProduct), GetOr(p.scenes, s.scenes), GetOr(p.currentSceneName, s.currentSceneName),
      GetOr(p.sources, s.sources), GetOr(p.audioInputs, s.audioInputs), GetOr(p.restreamChannels, s.restreamChannels))
  }

  /** The empty patch changes nothing, and applying a patch twice is applying
      it once. */
  lemma ApplyLaws(s: AppState, p: StatePatch)
    ensures Apply(s, NoPatch) == s
    ensures Apply(Apply(s, p), p) == Apply(s, p)
  {
  }

  /** A patch naming only the products sets them and leaves every other field
      as it was. */
  lemma ApplyProductsOnly(s: AppState, products: seq<Product>)
    ensures Apply(s, NoPatch.(products := Some(products))) == s.(products := products)
  {
  }

  // ---------------------------------------------------------------------
  // The list updates of the reducer.

  /** The levels of the first previous input with that name, or none. */
  function PreviousLevels(previous: seq<ObsAudioInput>, name: string): (levels: seq<seq<real>>)
    ensures (exists j | 0 <= j < |previous| :: previous[j].inputName == name) ==>
      exists j | 0 <= j < |previous| :: previous[j].inputName == name && levels == previous[j].inputLevels
        && forall k | 0 <= k < j :: previous[k].inputName != name
    ensures (forall j | 0 <= j < |previous| :: previous[j].inputName != name) ==> levels == []
  {
    if previous == [] then []
    else if previous[0].inputName == name then previous[0].inputLevels
    else
      var rest := PreviousLevels(previous[1..], name);
      assert forall j | 1 <= j < |previous| :: previous[j] == previous[1..][j - 1];
      rest
  }

  /** `SET_OBS_DATA`'s new audio inputs, each carrying the levels of the
      same-named previous input. */
  function WithLevels(inputs: seq<AudioInputInfo>, previous: seq<ObsAudioInput>): (r: seq<ObsAudioInput>)
    ensures |r| == |inputs|
    ensures forall i | 0 <= i < |r| ::
      r[i] == ObsAudioInput(inputs[i].inputName, inputs[i].inputMuted, inputs[i].inputVolumeDb, PreviousLevels(previous, inputs[i].inputName))
  {
    if inputs == [] then []
    else
      var last := inputs[|inputs| - 1];
      WithLevels(inputs[..|inputs| - 1], previous)
        + [ObsAudioInput(last.inputName, last.inputMuted, last.inputVolumeDb, PreviousLevels(previous, last.inputName))]
  }

  /** `UPDATE_SOURCE_VISIBILITY`'s map. */
  function SetVisibility(sources: seq<ObsSource>, id: int, enabled: bool): (r: seq<ObsSource>)
    ensures |r| == |sources|
    ensures forall i | 0 <= i < |r| ::
      r[i] == if sources[i].sceneItemId == id then sources[i].(sceneItemEnabled := enabled) else sources[i]
  {
    if sources == [] then []
    else
      var last := sources[|sources| - 1];
      SetVisibility(sources[..|sources| - 1], id, enabled) + [if last.sceneItemId == id then last.(sceneItemEnabled := enabled) else last]
  }

  /** `UPDATE_MUTE_STATE`'s map. */
  function SetMuted(inputs: seq<ObsAudioInput>, name: string, muted: bool): (r: seq<ObsAudioInput>)
    ensures |r| == |inputs|
    ensures forall i | 0 <= i < |r| ::
      r[i] == if inputs[i].inputName == name then inputs[i].(inputMuted := muted) else inputs[i]
  {
    if inputs == [] then []
    else
      var last := inputs[|inputs| - 1];
      SetMuted(inputs[..|inputs| - 1], name, muted) + [if last.inputName == name then last.(inputMuted := muted) else last]
  }

  /** `UPDATE_AUDIO_LEVELS`'s map. */
  function SetLevels(inputs: seq<ObsAudioInput>, name: string, levels: seq<seq<real>>): (r: seq<ObsAudioInput>)
    ensures |r| == |inputs|
    ensures forall i | 0 <= i < |r| ::
      r[i] == if inputs[i].inputName == name then inputs[i].(inputLevels := levels) else inputs[i]
  {
    if inputs == [] then []
    else
      var last := inputs[|inputs| - 1];
      SetLevels(inputs[..|inputs| - 1], name, levels) + [if last.inputName == name then last.(inputLevels := levels) else last]
  }

  /** The status a channel's `enabled` flag implies. */
  function StatusOf(enabled: bool): ChannelStatus {
    if enabled then Online else Offline
  }

  /** `UPDATE_RESTREAM_CHANNEL_STATUS`'s map. */
  function SetChannelEnabled(channels: seq<RestreamChannel>, id: int, enabled: bool): (r: seq<RestreamChannel>)
    ensures |r| == |channels|
    ensures forall i | 0 <= i < |r| ::
      r[i] == if channels[i].id == id then channels[i].(enabled := enabled, status := StatusOf(enabled)) else channels[i]
  {
    if channels == [] then []
    else
      var last := channels[|channels| - 1];
      SetChannelEnabled(channels[..|channels| - 1], id, enabled)
        + [if last.id == id then last.(enabled := enabled, status := StatusOf(enabled)) else last]
  }

  /** Every channel's status agrees with its `enabled` flag. */
  predicate ChannelsConsistent(channels: seq<RestreamChannel>) {
    forall i | 0 <= i < |channels| :: channels[i].status == StatusOf(channels[i].enabled)
  }

  function Reduce(s: AppState, a: Action): AppState {
    match a
    case SetState(p) => Apply(s, p)
    case SetObsStatus(status) => s.(obsStatus := status)
    case SetStreamState(streaming) => s.(isStreaming := streaming)
    case UpdateTimer(time) => s.(streamTime := time)
    case ResetObsData => s.(scenes := [], currentSceneName := None, sources := [], audioInputs := [])
    case SetObsData(scenes, name, sources, inputs) =>
      s.(scenes := scenes, currentSceneName := Some(name), sources := sources, audioInputs := WithLevels(inputs, s.audioInputs))
    case UpdateSourceVisibility(id, enabled) => s.(sources := SetVisibility(s.sources, id, enabled))
    case UpdateMuteState(name, muted) => s.(audioInputs := SetMuted(s.audioInputs, name, muted))
    case SetCurrentScene(name) => s.(currentSceneName := Some(name))
    case UpdateAudioLevels(name, levels) => s.(audioInputs := SetLevels(s.audioInputs, name, levels))
    case SetRestreamChannels(channels) => s.(restreamChannels := channels)
    case UpdateRestreamChannelStatus(id, enabled) => s.(restreamChannels := SetChannelEnabled(s.restreamChannels, id, enabled))
    case OtherAction => s
  }

  /** Each setter action sets its own field to the payload and touches no
      other field; an unknown action changes nothing. */
  lemma SettersTouchOnlyTheirField(s: AppState, a: Action)
    ensures a.OtherAction? ==> Reduce(s, a) == s
    ensures a.SetObsStatus? ==> Reduce(s, a).obsStatus == a.status && Reduce(s, a).(obsStatus := s.obsStatus) == s
    ensures a.SetStreamState? ==> Reduce(s, a).isStreaming == a.streaming && Reduce(s, a).(isStreaming := s.isStreaming) == s
    ensures a.UpdateTimer? ==> Reduce(s, a).streamTime == a.time && Reduce(s, a).(streamTime := s.streamTime) == s
    ensures a.SetCurrentScene? ==> Reduce(s, a).currentSceneName == Some(a.sceneName) && Reduce(s, a).(currentSceneName := s.currentSceneName) == s
    ensures a.SetRestreamChannels? ==> Reduce(s, a).restreamChannels == a.channels && Reduce(s, a).(restreamChannels := s.restreamChannels) == s
    ensures a.SetState? && a.patch == NoPatch ==> Reduce(s, a) == s
  {
    ApplyLaws(s, NoPatch);
  }

  /** `RESET_OBS_DATA` empties the OBS lists, forgets the current scene and
      keeps everything else. */
  lemma ResetObsDataClears(s: AppState)
    ensures var r := Reduce(s, ResetObsData);
      && r.scenes == [] && r.sources == [] && r.audioInputs == [] && r.currentSceneName == None
      && r.(scenes := s.scenes, currentSceneName := s.currentSceneName, sources := s.sources, audioInputs := s.audioInputs) == s
  {
  }

  /** `SET_OBS_DATA` keeps the payload's inputs in order, each with the
      levels of the same-named previous input, or none. */
  lemma SetObsDataCarriesLevels(s: AppState, scenes: seq<ObsScene>, name: string, sources: seq<ObsSource>, inputs: seq<AudioInputInfo>)
    ensures var r := Reduce(s, SetObsData(scenes, name, sources, inputs));
      && r.scenes == scenes && r.sources == sources && r.currentSceneName == Some(name)
      && |r.audioInputs| == |inputs|
      && (forall i | 0 <= i < |inputs| ::
            && r.audioInputs[i].inputName == inputs[i].inputName
            && r.audioInputs[i].inputMuted == inputs[i].inputMuted
            && r.audioInputs[i].inputVolumeDb == inputs[i].inputVolumeDb
            && ((forall j | 0 <= j < |s.audioInputs| :: s.audioInputs[j].inputName != inputs[i].inputName) ==> r.audioInputs[i].inputLevels == []))
      && r.(scenes := s.scenes, currentSceneName := s.currentSceneName, sources := s.sources, audioInputs := s.audioInputs) == s
  {
  }

  /** Re-sending the same inputs keeps every level: with distinct names,
      `SET_OBS_DATA` applied to inputs it produced leaves their levels as
      they were. */
  lemma SetObsDataKeepsOwnLevels(previous: seq<ObsAudioInput>)
    requires forall i, j | 0 <= i < j < |previous| :: previous[i].inputName != previous[j].inputName
    ensures var infos := seq(|previous|, i requires 0 <= i < |previous| => AudioInputInfo(previous[i].inputName, previous[i].inputMuted, previous[i].inputVolumeDb));
      WithLevels(infos, previous) == previous
  {
    var infos := seq(|previous|, i requires 0 <= i < |previous| => AudioInputInfo(previous[i].inputName, previous[i].inputMuted, previous[i].inputVolumeDb));
    var r := WithLevels(infos, previous);
    forall i | 0 <= i < |previous|
      ensures r[i] == previous[i]
    {
      var j :| 0 <= j < |previous| && previous[j].inputName == previous[i].inputName && r[i].inputLevels == previous[j].inputLevels
        && forall k | 0 <= k < j :: previous[k].inputName != previous[i].inputName;
      assert j == i;
    }
  }

  /** `UPDATE_RESTREAM_CHANNEL_STATUS` keeps every channel's status in step
      with its flag. */
  lemma ChannelStatusConsistent(s: AppState, id: int, enabled: bool)
    requires ChannelsConsistent(s.restreamChannels)
    ensures ChannelsConsistent(Reduce(s, UpdateRestreamChannelStatus(id, enabled)).restreamChannels)
  {
  }

  // ---------------------------------------------------------------------
  // The stream timer.

  /** `String(n).padStart(2, '0')` */
  function Pad2(n: nat): string {
    PadStart(NatToString(n), 2, '0')
  }

  /** A padded field is at least two digits, holds no colon, and reads back
      as the number. */
  lemma Pad2Value(n: nat)
    ensures |Pad2(n)| >= 2 && AllDigits(Pad2(n)) && DigitsValue(Pad2(n)) == n && ':' !in Pad2(n)
  {
    var d := NatToString(n);
    var r := Pad2(n);
    var z := r[..|r| - |d|];
    assert r == z + d;
    NatToStringValue(n);
    LeadingZeros(z, d);
  }

  /** The timer text for `elapsed` whole seconds. */
  function FormatElapsed(elapsed: nat): string {
    Pad2(elapsed / 3600) + ":" + Pad2((elapsed % 3600) / 60) + ":" + Pad2(elapsed % 60)
  }

  /** Three colon-free fields joined by colons split back into themselves. */
  lemma SplitThree(a: string, b: string, c: string)
    requires ':' !in a && ':' !in b && ':' !in c
    ensures Split(a + ":" + b + ":" + c, ':') == [a, b, c]
  {
    SplitNoSeparator(c, ':');
    SplitWordThen(b, ':', c);
    assert a + ":" + b + ":" + c == a + [':'] + (b + [':'] + c);
    SplitWordThen(a, ':', b + [':'] + c);
  }

  /** Hours, minutes and seconds of an elapsed time. */
  lemma ClockParts(elapsed: nat)
    ensures (elapsed % 3600) / 60 < 60 && elapsed % 60 < 60
    ensures (elapsed / 3600) * 3600 + ((elapsed % 3600) / 60) * 60 + elapsed % 60 == elapsed
  {
    var r := elapsed % 3600;
    assert elapsed == (elapsed / 3600) * 3600 + r;
    assert r == (r / 60) * 60 + r % 60;
    assert r % 60 == elapsed % 60;
  }

  /** The timer text splits into hours, minutes and seconds, each at least
      two digits; minutes and seconds are below 60, and together they give
      back the elapsed time. */
  lemma FormatElapsedRoundTrip(elapsed: nat)
    ensures var parts := Split(FormatElapsed(elapsed), ':');
      && |parts| == 3
      && (forall i | 0 <= i < 3 :: |parts[i]| >= 2 && AllDigits(parts[i]))
      && DigitsValue(parts[1]) < 60 && DigitsValue(parts[2]) < 60
      && DigitsValue(parts[0]) * 3600 + DigitsValue(parts[1]) * 60 + DigitsValue(parts[2]) == elapsed
  {
    var h, m, s := elapsed / 3600, (elapsed % 3600) / 60, elapsed % 60;
    Pad2Value(h);
    Pad2Value(m);
    Pad2Value(s);
    SplitThree(Pad2(h), Pad2(m), Pad2(s));
    ClockParts(elapsed);
  }

  // ---------------------------------------------------------------------
  // Comments and products.

  const MaxComments: nat := 50
  const HostUser: string := "\U{0E1C}\U{0E39}\U{0E49}\U{0E14}\U{0E33}\U{0E40}\U{0E19}\U{0E34}\U{0E19}\U{0E23}\U{0E32}\U{0E22}\U{0E01}\U{0E32}\U{0E23}"

  /** handleSendComment with `Date.now()` as `now`: blank text is ignored;
      otherwise the host's comment goes first, the list keeps at most 50,
      and the comment total grows by one. */
  function SendComment(s: AppState, text: string, now: int): (r: AppState)
    ensures Trim(text) == "" ==> r == s
    ensures Trim(text) != "" ==>
      && |r.comments| == (if |s.comments| + 1 < MaxComments then |s.comments| + 1 else MaxComments)
      && r.comments[0] == Comment(now, "host", HostUser, text, "text-cyan-400")
      && r.comments[1..] == s.comments[..|r.comments| - 1]
      && r.analytics == s.analytics.(totalComments := s.analytics.totalComments + 1)
      && r.(comments := s.comments, analytics := s.analytics) == s
  {
    if Trim(text) == "" then s
    else
      var comment := Comment(now, "host", HostUser, text, "text-cyan-400");
      var comments := [comment] + s.comments;
      var kept := if |comments| <= MaxComments then comments else comments[..MaxComments];
      Reduce(s, SetState(NoPatch.(comments := Some(kept),
                                  analytics := Some(s.analytics.(totalComments := s.analytics.totalComments + 1)))))
  }

  /** Only text with something other than whitespace is sent. */
  lemma SendCommentIgnoresBlank(s: AppState, text: string, now: int)
    ensures SendComment(s, text, now) == s <==> AllWhitespace(text)
  {
    TrimEmptyIffBlank(text);
    if !AllWhitespace(text) {
      assert SendComment(s, text, now).analytics.totalComments != s.analytics.totalComments;
    }
  }

  /** `{...p, ...product, id}` */
  function WithFields(id: int, f: ProductFields): Product {
    Product(id, f.name, f.price, f.category, f.icon)
  }

  /** The edit branch of handleSaveProduct. */
  function ReplaceProduct(products: seq<Product>, id: int, f: ProductFields): (r: seq<Product>)
    ensures |r| == |products|
    ensures forall i | 0 <= i < |r| :: r[i] == if products[i].id == id then WithFields(id, f) else products[i]
  {
    if products == [] then []
    else
      var last := products[|products| - 1];
      ReplaceProduct(products[..|products| - 1], id, f) + [if last.id == id then WithFields(id, f) else last]
  }

  /** handleSaveProduct with `Date.now()` as `now`: a truthy id edits every
      product with that id; a missing id, or 0, appends a new product. */
  function SaveProduct(products: seq<Product>, f: ProductFields, id: Option<int>, now: int): (r: seq<Product>)
    ensures id.Some? && id.value != 0 ==> |r| == |products| && forall i | 0 <= i < |r| :: r[i].id == products[i].id
    ensures id.Some? && id.value != 0 ==> forall i | 0 <= i < |r| ::
      r[i] == if products[i].id == id.value then WithFields(id.value, f) else products[i]
    ensures !(id.Some? && id.value != 0) ==> r == products + [WithFields(now, f)]
  {
    if id.Some? && id.value != 0 then ReplaceProduct(products, id.value, f)
    else products + [WithFields(now, f)]
  }

  /** `products.filter(p => p.id !== id)` */
  function RemoveProduct(products: seq<Product>, id: int): (r: seq<Product>)
    ensures |r| <= |products|
    ensures forall i | 0 <= i < |r| :: r[i].id != id && r[i] in products
    ensures forall p | p in products && p.id != id :: p in r
  {
    if products == [] then []
    else
      var last := products[|products| - 1];
      var init := RemoveProduct(products[..|products| - 1], id);
      assert forall p | p in products[..|products| - 1] :: p in products;
      if last.id == id then init else init + [last]
  }

  /** A one-product list keeps its product exactly when the id differs. */
  lemma RemoveProductSingle(p: Product, id: int)
    ensures RemoveProduct([p], id) == if p.id == id then [] else [p]
  {
    assert [p][..0] == [];
  }

  /** Filtering distributes over concatenation, so with the one-product case
      the order and the multiplicity of the kept products are those of the
      list. */
  lemma {:induction false} RemoveProductConcat(xs: seq<Product>, ys: seq<Product>, id: int)
    ensures RemoveProduct(xs + ys, id) == RemoveProduct(xs, id) + RemoveProduct(ys, id)
    decreases |ys|
  {
    if ys == [] {
      assert xs + ys == xs;
    } else {
      var init := ys[..|ys| - 1];
      assert (xs + ys)[..|xs + ys| - 1] == xs + init;
      assert (xs + ys)[|xs + ys| - 1] == ys[|ys| - 1];
      RemoveProductConcat(xs, init, id);
    }
  }

  /** Deleting an id no product has changes nothing. */
  lemma {:induction false} RemoveAbsent(products: seq<Product>, id: int)
    requires forall i | 0 <= i < |products| :: products[i].id != id
    ensures RemoveProduct(products, id) == products
  {
    if products != [] {
      RemoveAbsent(products[..|products| - 1], id);
    }
  }

  /** The confirmed delete: the products without that id, and the selection
      cleared exactly when it was that id. */
  function DeleteProduct(s: AppState, id: int): (r: AppState)
    ensures r.products == RemoveProduct(s.products, id)
    ensures r.selectedProductId == if s.selectedProductId == Some(id) then None else s.selectedProductId
    ensures r.(products := s.products, selectedProductId := s.selectedProductId) == s
  {
    Reduce(s, SetState(NoPatch.(products := Some(RemoveProduct(s.products, id)),
                               selectedProductId := Some(if s.selectedProductId == Some(id) then None else s.selectedProductId))))
  }
}
