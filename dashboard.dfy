/**
 * The ecological dashboard of src/components/apps/Dashboard.tsx: the time
 * spent shown in hours and minutes, and which of the learning badges are
 * shown as unlocked, all derived from the user's metrics.
 */
module Dashboard {
  import opened Strings
  import opened Metrics

  /**
   * JavaScript's `a % b` for a positive `b`: the remainder of the division
   * truncated toward zero, so it differs from `a` by a multiple of `b` and
   * takes the sign of `a`.
   */
  function JsRem(a: int, b: int): (r: int)
    requires b > 0
    ensures (a - r) % b == 0
    ensures a >= 0 ==> 0 <= r < b
    ensures a < 0 ==> -b < r <= 0
  {
    if a >= 0 then
      var q := a / b;
      assert a - a % b == q * b;
      MultipleMod(q, b);
      a % b
    else
      var q := (-a) / b;
      assert a + (-a) % b == (-q) * b;
      MultipleMod(-q, b);
      -((-a) % b)
  }

  /** A multiple of `b` leaves no remainder. */
  lemma MultipleMod(k: int, b: int)
    requires b > 0
    ensures (k * b) % b == 0
  {
    var m := k * b;
    var d := k - m / b;
    assert d * b == m % b;
    SmallMultiple(d, b);
  }

  /** The only multiple of `b` in `[0, b)` is 0. */
  lemma SmallMultiple(d: int, b: int)
    requires b > 0 && 0 <= d * b < b
    ensures d == 0
  {
  }

  /** On a non-negative `a`, JavaScript's remainder is the Euclidean one. */
  lemma JsRemNonNegative(a: int, b: int)
    requires a >= 0 && b > 0
    ensures JsRem(a, b) == a % b
  {
  }

  /** An integer in a template literal. */
  function IntToString(n: int): (r: string)
    ensures n >= 0 ==> r == NatToString(n)
    ensures n < 0 ==> r == "-" + NatToString(-n)
  {
    if n >= 0 then NatToString(n) else "-" + NatToString(-n)
  }

  /** The hours of `formatTime`: `Math.floor(seconds / 3600)`. */
  function Hours(seconds: int): int {
    seconds / 3600
  }

  /** The minutes of `formatTime`: `Math.floor((seconds % 3600) / 60)`. */
  function Minutes(seconds: int): int {
    JsRem(seconds, 3600) / 60
  }

  /** `formatTime`: `<h>h <m>min` when there is a full hour, otherwise `<m>min`. */
  function FormatTime(seconds: int): string {
    var hours := Hours(seconds);
    var minutes := Minutes(seconds);
    if hours > 0 then IntToString(hours) + "h " + IntToString(minutes) + "min" else IntToString(minutes) + "min"
  }

  /** One badge of the dashboard, without its name and icon. */
  datatype ShownBadge = ShownBadge(id: string, unlocked: bool)

  /** The badge the dashboard unlocks by the energy saved rather than by the list of badges earned. */
  const EcoWarrior: string := "eco-warrior"

  /** The dashboard's badges, in display order. */
  const BadgeIds: seq<string> := ["first-command", "terminal-novice", "terminal-expert", "first-app", "app-explorer", EcoWarrior]

  /** `badges`: each is unlocked when earned, except `eco-warrior`, unlocked by more than 50 Wh saved. */
  function ShownBadges(m: UserMetrics): (r: seq<ShownBadge>)
    ensures |r| == |BadgeIds|
    ensures forall i :: 0 <= i < |r| ==> r[i].id == BadgeIds[i]
    ensures forall i :: 0 <= i < |r| ==>
      (r[i].unlocked <==> if BadgeIds[i] == EcoWarrior then m.energySaved > 50.0 else BadgeIds[i] in m.badges)
  {
    seq(|BadgeIds|, i requires 0 <= i < |BadgeIds| =>
      ShownBadge(BadgeIds[i], if BadgeIds[i] == EcoWarrior then m.energySaved > 50.0 else BadgeIds[i] in m.badges))
  }
}
