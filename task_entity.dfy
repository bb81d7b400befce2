/** The task entity's own behaviour: the builder's default status and the
    pre-persist hook that derives the estimated hours from the due date. */
module TaskEntity {
  import opened Model

  const MillisPerHour: int := 3_600_000

  /** Java's `long` division, which truncates toward zero: the quotient is
      the multiple of `b` nearest to `a` on the side of zero. */
  function JavaDiv(a: int, b: int): (q: int)
    requires b > 0
    ensures a >= 0 ==> 0 <= q && q * b <= a < (q + 1) * b
    ensures a < 0 ==> q <= 0 && (q - 1) * b < a <= q * b
  {
    if a >= 0 then a / b else -((-a) / b)
  }

  /** `Duration.between(now, due).toHours()` for instants in milliseconds:
      the duration is normalised to whole seconds rounded down (its nanosecond
      part is never negative), then divided by 3600 with truncation. */
  function DurationHours(now: Instant, due: Instant): int {
    JavaDiv((due - now) / MillisPerSecond, SecondsPerHour)
  }

  /** The truncated hours bracket the duration: non-positive for a due date
      not in the future, whole hours rounded down for one in the future. */
  lemma DurationHoursBounds(now: Instant, due: Instant)
    ensures due <= now ==> DurationHours(now, due) <= 0
    ensures now < due ==> var h := DurationHours(now, due);
      h * MillisPerHour <= due - now < (h + 1) * MillisPerHour
  {
    var d := due - now;
    var secs := d / MillisPerSecond;
    if d <= 0 {
      assert secs <= 0;
    } else {
      var h := DurationHours(now, due);
      assert secs * 1000 <= d < secs * 1000 + 1000;
      assert h == secs / 3600;
      assert h * 3600 <= secs < h * 3600 + 3600;
      assert h * MillisPerHour == (h * 3600) * 1000;
      assert (h + 1) * MillisPerHour == (h * 3600 + 3600) * 1000;
    }
  }

  /** `Math.max(hours, 0)`: the hours from now until the due date, never
      negative. */
  function EstimatedHours(now: Instant, due: Instant): (h: int)
    ensures h >= 0
    ensures due <= now ==> h == 0
    ensures now < due ==> h * MillisPerHour <= due - now < (h + 1) * MillisPerHour
  {
    DurationHoursBounds(now, due);
    var hours := DurationHours(now, due);
    if hours > 0 then hours else 0
  }

  /** `Task.builder()...build()`: a live task whose status defaults to
      TO_DO and whose estimated hours are not yet set. */
  function NewTask(titre: Option<string>, description: Option<string>, dateEcheance: Option<Instant>,
                   priorite: Option<PriorityLevel>, projet: Uuid, assignee: Uuid): (t: Task)
    ensures t.statut == ToDo && t.Live() && t.heuresEstimees.None?
    ensures t.titre == titre && t.description == description && t.dateEcheance == dateEcheance
    ensures t.priorite == priorite && t.projet == projet && t.assignee == assignee
  {
    Task(titre, description, dateEcheance, None, ToDo, priorite, projet, assignee, None)
  }

  /** `prePersist` at time `now`: with a due date, the estimated hours become
      the clamped whole hours until it; without one, the row is unchanged.
      No other field is touched. */
  function PrePersist(t: Task, now: Instant): (r: Task)
    ensures t.dateEcheance.None? ==> r == t
    ensures t.dateEcheance.Some? ==> r.heuresEstimees == Some(EstimatedHours(now, t.dateEcheance.value))
    ensures r == t.(heuresEstimees := r.heuresEstimees)
  {
    if t.dateEcheance.Some? then t.(heuresEstimees := Some(EstimatedHours(now, t.dateEcheance.value))) else t
  }

  /** After `prePersist` the estimated hours of a task with a due date are
      never negative, zero for a due date already past, and the truncated
      whole hours for a future one. */
  lemma PrePersistHours(t: Task, now: Instant)
    requires t.dateEcheance.Some?
    ensures var h := PrePersist(t, now).heuresEstimees.value;
      && h >= 0
      && (t.dateEcheance.value <= now ==> h == 0)
      && (now < t.dateEcheance.value ==>
            h * MillisPerHour <= t.dateEcheance.value - now < (h + 1) * MillisPerHour)
  {
  }

  /** A due date exactly one hour minus a millisecond ahead yields 0 hours,
      exactly one hour ahead yields 1: the bounds of `EstimatedHours` pinned
      at the hour edge, which fixes the unit (hours of 3,600,000 ms) and the
      rounding direction. */
  lemma HoursTruncate(now: Instant)
    ensures EstimatedHours(now, now + MillisPerHour - 1) == 0
    ensures EstimatedHours(now, now + MillisPerHour) == 1
  {
  }
}
