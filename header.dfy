/** The chain header: four tiles (best block, finalized block, average block
    time, last block) and the predicate that decides when it re-renders. */
module Header {
  import opened Common

  type BlockNumber = nat
  type Timestamp = int
  type Milliseconds = int
  /** The chain view's current tab (`Chain.Display`, defined outside this
      model); only its equality matters here. */
  type Display = string
  /** The identity of the `setDisplay` callback; JavaScript compares
      functions by identity. */
  type CallbackId = nat

  /** The parts of the application state the header shows. */
  datatype AppState = AppState(best: BlockNumber, finalized: BlockNumber,
                               blockTimestamp: Timestamp, blockAverage: Option<Milliseconds>)

  datatype Props = Props(appState: AppState, best: BlockNumber, finalized: BlockNumber,
                         blockTimestamp: Timestamp, blockAverage: Option<Milliseconds>,
                         currentTab: Display, setDisplay: CallbackId)

  /** The five props the header watches. */
  datatype Watched = Watched(best: BlockNumber, finalized: BlockNumber, blockTimestamp: Timestamp,
                             blockAverage: Option<Milliseconds>, currentTab: Display)

  function WatchedOf(p: Props): Watched
  {
    Watched(p.best, p.finalized, p.blockTimestamp, p.blockAverage, p.currentTab)
  }

  /** Re-render exactly when one of the five watched props changed. */
  function ShouldComponentUpdate(current: Props, next: Props): (update: bool)
    ensures update <==> WatchedOf(current) != WatchedOf(next)
  {
    current.best != next.best ||
    current.finalized != next.finalized ||
    current.blockTimestamp != next.blockTimestamp ||
    current.blockAverage != next.blockAverage ||
    current.currentTab != next.currentTab
  }

  /** A new application state or callback alone never re-renders. */
  lemma UnwatchedChangesIgnored(current: Props, next: Props)
    requires current.best == next.best && current.finalized == next.finalized
    requires current.blockTimestamp == next.blockTimestamp
    requires current.blockAverage == next.blockAverage && current.currentTab == next.currentTab
    ensures !ShouldComponentUpdate(current, next)
  {
  }

  lemma ShouldComponentUpdateSymmetric(a: Props, b: Props)
    ensures ShouldComponentUpdate(a, b) == ShouldComponentUpdate(b, a)
    ensures !ShouldComponentUpdate(a, a)
  {
  }

  /** What the average-time tile shows: a dash, or the average in seconds
      (formatted by `secondsWithPrecision`, which is not part of this model). */
  datatype AverageTime = Dash | Seconds(value: real)

  function AverageTimeTile(blockAverage: Option<Milliseconds>): (t: AverageTime)
    ensures t.Dash? <==> blockAverage.None?
    ensures blockAverage.Some? ==> t.value * 1000.0 == blockAverage.value as real
  {
    if blockAverage == None then Dash else Seconds(blockAverage.value as real / 1000.0)
  }

  datatype Tiles = Tiles(bestBlock: BlockNumber, finalizedBlock: BlockNumber,
                         averageTime: AverageTime, lastBlock: Timestamp)

  /** The tiles take their values from the application state, not from the
      five watched props. */
  function Render(props: Props): (t: Tiles)
    ensures t.bestBlock == props.appState.best && t.finalizedBlock == props.appState.finalized
    ensures t.lastBlock == props.appState.blockTimestamp
    ensures t.averageTime.Dash? <==> props.appState.blockAverage.None?
    ensures t.averageTime == AverageTimeTile(props.appState.blockAverage)
  {
    var s := props.appState;
    Tiles(s.best, s.finalized, AverageTimeTile(s.blockAverage), s.blockTimestamp)
  }
}
