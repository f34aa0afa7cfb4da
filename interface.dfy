/** The pure parts of the on-screen interface: the hero's health bar and
    the settings and placement of notifications. */
module Interface {
  import opened Common
  import opened Text

  const Yellow: int := 0xffff00

  /** The health bar's percentage: health clamped to 0..100. */
  function HealthPercentage(health: int): (p: int)
    ensures 0 <= p <= 100
    ensures 0 <= health <= 100 ==> p == health
    ensures health < 0 ==> p == 0
    ensures health > 100 ==> p == 100
  {
    if health < 0 then 0 else if health > 100 then 100 else health
  }

  /** The fill colour for a percentage: cyan above 60, yellow above 30, red
      otherwise; exactly one band applies. */
  function HealthColour(percentage: int): (c: int)
    ensures c == Cyan <==> percentage > 60
    ensures c == Yellow <==> 30 < percentage <= 60
    ensures c == Red <==> percentage <= 30
    ensures c == Cyan || c == Yellow || c == Red
  {
    if percentage > 60 then Cyan else if percentage > 30 then Yellow else Red
  }

  function HealthLabel(percentage: int): (s: string)
    ensures |s| > 8 && s[..4] == "HP: " && s[|s| - 4..] == "/100"
    ensures s[4..|s| - 4] == IntToString(percentage)
  {
    "HP: " + IntToString(percentage) + "/100"
  }

  /** What `updateHealthBar` shows. */
  datatype HealthBar = HealthBar(width: int, caption: string, colour: int)

  function UpdateHealthBar(health: int): (b: HealthBar)
    ensures b.width == HealthPercentage(health)
    ensures b.caption == HealthLabel(b.width) && b.colour == HealthColour(b.width)
  {
    var percentage := HealthPercentage(health);
    HealthBar(percentage, HealthLabel(percentage), HealthColour(percentage))
  }

  /** The rank of a colour band, red lowest. */
  function BandRank(c: int): nat {
    if c == Red then 0 else if c == Yellow then 1 else 2
  }

  /** More health never shows a lower band. */
  lemma BandMonotone(h1: int, h2: int)
    requires h1 <= h2
    ensures BandRank(UpdateHealthBar(h1).colour) <= BandRank(UpdateHealthBar(h2).colour)
  {
  }

  /** The label tells every displayed percentage apart: two health values
      show the same label only when their clamped percentages agree. */
  lemma LabelDeterminesPercentage(h1: int, h2: int)
    requires UpdateHealthBar(h1).caption == UpdateHealthBar(h2).caption
    ensures HealthPercentage(h1) == HealthPercentage(h2)
  {
    var s1 := UpdateHealthBar(h1).caption;
    var s2 := UpdateHealthBar(h2).caption;
    assert s1[4..|s1| - 4] == s2[4..|s2| - 4];
    IntToStringInjective(HealthPercentage(h1), HealthPercentage(h2));
  }

  /** The options a caller passes to `createNotification`; None is a key the
      caller left out. */
  datatype NotificationOptions = NotificationOptions(
    position: Option<string>, colour: Option<string>, fontSize: Option<string>,
    duration: Option<int>, backgroundColour: Option<string>)

  /** The settings a notification is built from. */
  datatype NotificationSettings = NotificationSettings(
    position: string, colour: string, fontSize: string, duration: int, backgroundColour: string)

  const Defaults: NotificationSettings := NotificationSettings("center", "#00ffff", "24px", 2000, "transparent")

  function Pick<T>(given: Option<T>, fallback: T): (v: T)
    ensures given.Some? ==> v == given.value
    ensures given.None? ==> v == fallback
  {
    if given.Some? then given.value else fallback
  }

  /** `{ ...defaults, ...options }`: every key the caller gave wins, every
      other key keeps its default. */
  function MergeSettings(options: NotificationOptions): (s: NotificationSettings)
    ensures s.position == Pick(options.position, Defaults.position)
    ensures s.colour == Pick(options.colour, Defaults.colour)
    ensures s.fontSize == Pick(options.fontSize, Defaults.fontSize)
    ensures s.duration == Pick(options.duration, Defaults.duration)
    ensures s.backgroundColour == Pick(options.backgroundColour, Defaults.backgroundColour)
  {
    NotificationSettings(
      Pick(options.position, Defaults.position),
      Pick(options.colour, Defaults.colour),
      Pick(options.fontSize, Defaults.fontSize),
      Pick(options.duration, Defaults.duration),
      Pick(options.backgroundColour, Defaults.backgroundColour))
  }

  /** Settings passed back in full as options come out unchanged, and no
      options at all give the defaults. */
  lemma MergeRoundTrip(s: NotificationSettings)
    ensures MergeSettings(NotificationOptions(Some(s.position), Some(s.colour), Some(s.fontSize),
                                              Some(s.duration), Some(s.backgroundColour))) == s
    ensures MergeSettings(NotificationOptions(None, None, None, None, None)) == Defaults
  {
  }

  /** The vertical placement: 20% for "top", 80% for "bottom", and the middle
      for anything else. */
  function VerticalTop(position: string): (top: string)
    ensures top == "20%" <==> position == "top"
    ensures top == "80%" <==> position == "bottom"
    ensures top == "50%" <==> position != "top" && position != "bottom"
  {
    if position == "top" then "20%" else if position == "bottom" then "80%" else "50%"
  }

  /** A notification is padded exactly when it has a background. */
  function Padding(backgroundColour: string): (p: string)
    ensures p != "0" <==> backgroundColour != "transparent"
  {
    if backgroundColour != "transparent" then "10px 20px" else "0"
  }
}
