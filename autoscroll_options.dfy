/**
 * The resolved options of the AutoScroll plugin and their defaults
 * (packages/embla-carousel-auto-scroll/src/components/Options.ts).
 */
module AutoScrollOptions {
  import opened Wrappers
  import opened Dom

  /** The string-literal type 'forward' | 'backward'. */
  datatype Direction = Forward | Backward

  /** The literal each direction is written as. */
  function DirectionName(d: Direction): string {
    match d
    case Forward => "forward"
    case Backward => "backward"
  }

  /** Reads a direction literal; any other string is not a direction. */
  function ParseDirection(s: string): (r: Option<Direction>)
    ensures r.Some? <==> (s == "forward" || s == "backward")
    ensures r.Some? ==> DirectionName(r.value) == s
  {
    if s == "forward" then Some(Forward)
    else if s == "backward" then Some(Backward)
    else None
  }

  /** A breakpoint entry: any option except `breakpoints`, each one optional. */
  datatype OptionsOverride = OptionsOverride(
    direction: Option<Direction>,
    speed: Option<real>,
    delay: Option<real>,
    active: Option<bool>,
    playOnInit: Option<bool>,
    stopOnFocusIn: Option<bool>,
    stopOnInteraction: Option<bool>,
    stopOnMouseEnter: Option<bool>,
    rootNode: Option<Option<RootResolver>>)

  /** The resolved options record; `active` and `breakpoints` are the fields every plugin's options carry. */
  datatype Options = Options(
    direction: Direction,
    speed: real,
    delay: real,
    active: bool,
    breakpoints: map<string, OptionsOverride>,
    playOnInit: bool,
    stopOnFocusIn: bool,
    stopOnInteraction: bool,
    stopOnMouseEnter: bool,
    rootNode: Option<RootResolver>)

  /** `defaultOptions`. */
  const DefaultOptions: Options := Options(
    direction := Forward,
    speed := 1.0,
    delay := 1000.0,
    active := true,
    breakpoints := map[],
    playOnInit := true,
    stopOnFocusIn := true,
    stopOnInteraction := true,
    stopOnMouseEnter := false,
    rootNode := None)

  /** Every direction is one of the two literals, and each literal reads back as its direction. */
  lemma DirectionRoundTrip(d: Direction)
    ensures DirectionName(d) == "forward" || DirectionName(d) == "backward"
    ensures ParseDirection(DirectionName(d)) == Some(d)
  {
  }

  /** The default values as the defaults record declares them. */
  lemma DefaultValues()
    ensures DefaultOptions.direction == Forward
    ensures DefaultOptions.speed == 1.0 && DefaultOptions.delay == 1000.0
    ensures DefaultOptions.active && DefaultOptions.breakpoints == map[]
    ensures DefaultOptions.playOnInit
    ensures DefaultOptions.stopOnFocusIn && DefaultOptions.stopOnInteraction && !DefaultOptions.stopOnMouseEnter
    ensures DefaultOptions.rootNode.None?
  {
  }
}
