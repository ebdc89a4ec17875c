/** DamageNumber.cs and DamageNumberController.cs: floating damage labels and
    the pool that recycles them. The two live in one module because each
    number holds a reference back to its pool (the return-to-pool callback). */
module DamageNumbers {
  import opened Text
  import opened Lists

  const Lifetime: real := 1.0
  const MinFloatSpeed: real := 0.1
  const MaxFloatSpeed: real := 1.0
  const DefaultPoolSize: int := 20

  datatype Point = Point(x: real, y: real, z: real)

  /** `Mathf.RoundToInt`: the nearest integer, halves going to the even
      neighbour (the rounding of `Math.Round`). */
  function RoundToInt(v: real): (n: int)
    ensures -0.5 <= n as real - v <= 0.5
    ensures (n as real - v == 0.5 || v - n as real == 0.5) ==> n % 2 == 0
  {
    var f := v.Floor;
    var frac := v - f as real;
    if frac < 0.5 then f
    else if frac > 0.5 then f + 1
    else if f % 2 == 0 then f else f + 1
  }

  /** The two properties above pin the result down: any integer within a half
      of `v` that is even on a tie is the rounded value. */
  lemma RoundingIsUnique(v: real, m: int)
    requires -0.5 <= m as real - v <= 0.5
    requires (m as real - v == 0.5 || v - m as real == 0.5) ==> m % 2 == 0
    ensures m == RoundToInt(v)
  {
  }

  /** A whole damage value is shown as itself. */
  lemma RoundingKeepsWholeValues(k: int)
    ensures RoundToInt(k as real) == k
  {
    RoundingIsUnique(k as real, k);
  }

  /** The label a damage value produces, read back, is the rounded value. */
  lemma LabelReadsBackRounded(v: real)
    ensures ParseInt(IntToString(RoundToInt(v))) == RoundToInt(v)
  {
    IntToStringRoundTrip(RoundToInt(v));
  }

  class DamageNumber {
    /** `gameObject.activeSelf`; the engine calls `Update` only on active objects. */
    var active: bool
    /** `Destroy(gameObject)` has been called. */
    var destroyed: bool
    /** `damageText != null`. */
    const hasText: bool
    var text: string
    var floatSpeed: real
    var currentLifetime: real
    var position: Point
    /** The return-to-pool callback: the pool that created this number, if any. */
    var pool: DamageNumberController?

    /** `Instantiate(prefab)`: an active copy with no callback and zeroed timers. */
    constructor (hasText: bool)
      ensures this.hasText == hasText && active && !destroyed && pool == null
      ensures text == "" && floatSpeed == 0.0 && currentLifetime == 0.0
    {
      this.hasText := hasText;
      active := true;
      destroyed := false;
      text := "";
      floatSpeed := 0.0;
      currentLifetime := 0.0;
      position := Point(0.0, 0.0, 0.0);
      pool := null;
    }

    method SetDamage(value: int)
      modifies this`text
      ensures hasText ==> text == IntToString(value) && ParseInt(text) == value
      ensures !hasText ==> text == old(text)
    {
      if hasText {
        text := IntToString(value);
        IntToStringRoundTrip(value);
      }
    }

    method SetReturnToPoolCallback(callback: DamageNumberController?)
      modifies this`pool
      ensures pool == callback
    {
      pool := callback;
    }

    /** `Initialize`: `speedDraw` is the value of
        `Random.Range(MIN_FLOAT_SPEED, MAX_FLOAT_SPEED)`, both ends included. */
    method Initialize(speedDraw: real)
      requires MinFloatSpeed <= speedDraw <= MaxFloatSpeed
      modifies this`floatSpeed, this`currentLifetime
      ensures floatSpeed == speedDraw && currentLifetime == Lifetime
    {
      floatSpeed := speedDraw;
      currentLifetime := Lifetime;
    }

    /** One frame: rise by `floatSpeed * dt`, count the lifetime down and, once
        it is used up, hand the number back to its pool or destroy it. */
    method Update(dt: real)
      requires active && !destroyed && dt >= 0.0
      requires pool != null ==> pool.Valid()
      modifies this, pool
      ensures pool == old(pool) && floatSpeed == old(floatSpeed) && text == old(text)
      ensures position == old(position).(y := old(position).y + floatSpeed * dt)
      ensures currentLifetime == old(currentLifetime) - dt
      ensures pool != null ==> pool.Valid()
      ensures currentLifetime > 0.0 ==> active && !destroyed && (pool != null ==> unchanged(pool))
      ensures currentLifetime <= 0.0 && pool == null ==> destroyed
      ensures currentLifetime <= 0.0 && pool != null ==>
        !destroyed &&
        if this in old(pool.actives) then
          !active && pool.actives == RemoveFirst(old(pool.actives), this) && pool.queue == old(pool.queue) + [this]
        else
          active && unchanged(pool)
    {
      FloatUpward(dt);
      UpdateLifetime(dt);
    }

    method FloatUpward(dt: real)
      requires pool != null ==> pool.Valid()
      modifies this`position
      ensures position == old(position).(y := old(position).y + floatSpeed * dt)
      ensures pool != null ==> pool.Valid()
    {
      position := position.(y := position.y + floatSpeed * dt);
    }

    method UpdateLifetime(dt: real)
      requires active && !destroyed
      requires pool != null ==> pool.Valid()
      modifies this, pool
      ensures pool == old(pool) && floatSpeed == old(floatSpeed) && text == old(text)
      ensures position == old(position)
      ensures currentLifetime == old(currentLifetime) - dt
      ensures pool != null ==> pool.Valid()
      ensures currentLifetime > 0.0 ==> active && !destroyed && (pool != null ==> unchanged(pool))
      ensures currentLifetime <= 0.0 && pool == null ==> destroyed
      ensures currentLifetime <= 0.0 && pool != null ==>
        !destroyed &&
        if this in old(pool.actives) then
          !active && pool.actives == RemoveFirst(old(pool.actives), this) && pool.queue == old(pool.queue) + [this]
        else
          active && unchanged(pool)
    {
      currentLifetime := currentLifetime - dt;
      if currentLifetime <= 0.0 {
        ReturnToPool();
      }
    }

    method ReturnToPool()
      requires active
      requires pool != null ==> pool.Valid()
      modifies this, pool
      ensures pool == old(pool) && floatSpeed == old(floatSpeed) && text == old(text)
      ensures position == old(position) && currentLifetime == old(currentLifetime)
      ensures pool == null ==> destroyed
      ensures pool != null ==> pool.Valid() && destroyed == old(destroyed)
      ensures pool != null ==>
        if this in old(pool.actives) then
          !active && pool.actives == RemoveFirst(old(pool.actives), this) && pool.queue == old(pool.queue) + [this]
        else
          active && unchanged(pool)
    {
      if pool != null {
        pool.ReturnToPool(this);
      } else {
        destroyed := true;
      }
    }
  }

  class DamageNumberController {
    /** `prefab != null`. */
    const hasPrefab: bool
    /** Whether the prefab's copies carry a text component. */
    const prefabHasText: bool
    const poolSize: int
    /** `damageNumberPool`, front first. */
    var queue: seq<DamageNumber>
    /** `activeDamageNumbers`. */
    var actives: seq<DamageNumber>
    /** Every number this pool has instantiated. */
    ghost var created: set<DamageNumber>

    /** The pool's invariant: every number it created is either queued or
        handed out, never both and never twice; queued numbers are hidden; and
        every number belongs to this pool, copies this prefab and is never destroyed. */
    ghost predicate Valid()
      reads this, queue, actives
    {
      Distinct(queue) && Distinct(actives) &&
      (forall d :: d in queue ==> d !in actives) &&
      created == (set d | d in queue) + (set d | d in actives) &&
      (forall d :: d in queue ==> !d.active && d.pool == this && d.hasText == prefabHasText && !d.destroyed) &&
      (forall d :: d in actives ==> d.pool == this && d.hasText == prefabHasText && !d.destroyed)
    }

    /** `Awake`/`InitializePool`: `poolSize` hidden numbers, none handed out.
        Without a prefab the first `Instantiate` throws, so the pool stays empty. */
    constructor (hasPrefab: bool, prefabHasText: bool, poolSize: int)
      ensures Valid() && actives == [] && created == set d | d in queue
      ensures this.hasPrefab == hasPrefab && this.prefabHasText == prefabHasText && this.poolSize == poolSize
      ensures |queue| == if hasPrefab && poolSize > 0 then poolSize else 0
      ensures forall d :: d in queue ==> fresh(d)
    {
      this.hasPrefab := hasPrefab;
      this.prefabHasText := prefabHasText;
      this.poolSize := poolSize;
      queue := [];
      actives := [];
      created := {};
      new;
      if hasPrefab {
        var i := 0;
        while i < poolSize
          invariant 0 <= i && (i <= poolSize || i == 0)
          invariant Valid() && actives == [] && |queue| == i && created == set d | d in queue
          invariant forall d :: d in queue ==> fresh(d)
        {
          CreatePooledDamageNumber();
          i := i + 1;
        }
      }
    }

    method CreatePooledDamageNumber()
      requires Valid() && hasPrefab
      modifies this
      ensures Valid() && actives == old(actives)
      ensures |queue| == |old(queue)| + 1 && queue[..|old(queue)|] == old(queue)
      ensures fresh(queue[|old(queue)|]) && created == old(created) + {queue[|old(queue)|]}
    {
      var d := new DamageNumber(prefabHasText);
      d.active := false;
      d.SetReturnToPoolCallback(this);
      queue := queue + [d];
      created := created + {d};
      assert queue[..|old(queue)|] == old(queue);
    }

    /** `GetPooledDamageNumber`: the front of the queue, or a new number when the
        queue is empty; either way it joins the handed-out list. */
    method GetPooledDamageNumber() returns (d: DamageNumber)
      requires Valid() && hasPrefab
      modifies this
      ensures Valid()
      ensures actives == old(actives) + [d] && !d.active
      ensures old(queue) == [] ==> fresh(d) && queue == [] && created == old(created) + {d}
      ensures old(queue) != [] ==> d == old(queue)[0] && queue == old(queue)[1..] && created == old(created)
    {
      if |queue| == 0 {
        CreatePooledDamageNumber();
      }
      d := queue[0];
      assert d in queue;
      queue := queue[1..];
      actives := actives + [d];
    }

    /** `ReturnToPool`: a handed-out number is hidden and queued again; anything
        else (null, or already back) is ignored, so returning twice is harmless. */
    method ReturnToPool(d: DamageNumber?)
      requires Valid()
      modifies this, d
      ensures Valid() && created == old(created)
      ensures |queue| + |actives| == old(|queue| + |actives|)
      ensures d != null ==> d.pool == old(d.pool) && d.destroyed == old(d.destroyed) && d.text == old(d.text)
      ensures d != null ==> d.position == old(d.position) && d.currentLifetime == old(d.currentLifetime)
      ensures d != null ==> d.floatSpeed == old(d.floatSpeed)
      ensures d != null && d in old(actives) ==>
        !d.active && actives == RemoveFirst(old(actives), d as DamageNumber) && queue == old(queue) + [d] && d !in actives
      ensures !(d != null && d in old(actives)) ==> unchanged(this) && (d != null ==> unchanged(d))
    {
      if d != null && d in actives {
        var e: DamageNumber := d;
        RemoveFirstOfDistinct(actives, e);
        RemoveFirstAt(actives, e);
        assert e !in queue;
        actives := RemoveFirst(actives, e);
        e.active := false;
        queue := queue + [e];
      }
    }

    /** `IsValidSetup`. */
    predicate IsValidSetup()
      reads this
    {
      hasPrefab
    }

    /** `SetupDamageNumber`: place, show, label with the rounded value and restart the timers. */
    method SetupDamageNumber(d: DamageNumber?, value: real, location: Point, speedDraw: real)
      requires MinFloatSpeed <= speedDraw <= MaxFloatSpeed
      modifies d
      ensures d != null ==>
        d.position == location && d.active && d.floatSpeed == speedDraw && d.currentLifetime == Lifetime &&
        d.text == (if d.hasText then IntToString(RoundToInt(value)) else old(d.text)) &&
        d.pool == old(d.pool) && d.destroyed == old(d.destroyed)
    {
      if d != null {
        d.position := location;
        d.active := true;
        d.SetDamage(RoundToInt(value));
        d.Initialize(speedDraw);
      }
    }

    /** `CreateNumber`: with a prefab, one more number is shown at `location`,
        labelled with the rounded damage; it is the front of the queue, or new
        when the queue was empty. Without a prefab nothing happens. */
    method CreateNumber(value: real, location: Point, speedDraw: real)
      requires Valid() && MinFloatSpeed <= speedDraw <= MaxFloatSpeed
      modifies this, queue
      ensures Valid() && old(created) <= created
      ensures !hasPrefab ==> unchanged(this) && unchanged(old(queue))
      ensures hasPrefab ==>
        |actives| == |old(actives)| + 1 && actives[..|old(actives)|] == old(actives) &&
        var d := actives[|old(actives)|];
        d.active && d.position == location && d.floatSpeed == speedDraw && d.currentLifetime == Lifetime &&
        (d.hasText ==> d.text == IntToString(RoundToInt(value))) &&
        (old(queue) == [] ==> fresh(d) && queue == []) &&
        (old(queue) != [] ==> d == old(queue)[0] && queue == old(queue)[1..])
    {
      if !IsValidSetup() {
        return;
      }
      var d := GetPooledDamageNumber();
      SetupDamageNumber(d, value, location, speedDraw);
      assert actives[..|old(actives)|] == old(actives);
    }
  }
}
