/**
 * The observer example (the-observer-pattern.py): a weather subject keeps an
 * ordered, duplicate-free list of observers and, whenever its measurements
 * are set, calls `update` on each registered observer in list order.
 *
 * The list is a class attribute in the source, shared by every subject; it
 * is modelled as its own object, `ObserverList`, that subjects hold by
 * reference, so subjects built on the same list share it.
 */
module ObserverPattern {

  /** Readings are only stored and passed along, never computed on. */
  type Reading = real

  /** The two concrete observer classes (they differ only in what they print). */
  datatype DisplayKind = CurrentDisplay | AnotherDisplay

  /** One `update` call made during a notification: its receiver and arguments. */
  datatype Delivery = Delivery(recipient: Display, temp: Reading, humidity: Reading, pressure: Reading)

  // ---- The observer list as a value ----

  predicate NoDuplicates<T(==)>(s: seq<T>) {
    forall i, j :: 0 <= i < j < |s| ==> s[i] != s[j]
  }

  /** The list after `registerObserver(o)`. */
  function Registered<T(==)>(s: seq<T>, o: T): (r: seq<T>)
    ensures o in r
    ensures forall i :: 0 <= i < |r| ==> r[i] in s || r[i] == o
    ensures s <= r && |r| <= |s| + 1
    ensures NoDuplicates(s) ==> NoDuplicates(r)
  {
    if o in s then s else s + [o]
  }

  /** The list after Python's `list.remove(o)`: its first occurrence deleted, or nothing. */
  function Removed<T(==)>(s: seq<T>, o: T): (r: seq<T>)
    ensures o in s ==> |r| == |s| - 1
    ensures multiset(r) == multiset(s) - multiset{o}
  {
    if |s| == 0 then []
    else
      assert s == [s[0]] + s[1..];
      if s[0] == o then s[1..] else [s[0]] + Removed(s[1..], o)
  }

  /** Registering an observer already present changes nothing. */
  lemma RegisterPresent<T>(s: seq<T>, o: T)
    requires o in s
    ensures Registered(s, o) == s
  {
  }

  /** Registering a new observer appends it after all earlier entries. */
  lemma RegisterAbsent<T>(s: seq<T>, o: T)
    requires o !in s
    ensures Registered(s, o) == s + [o]
  {
  }

  /** Double registration is the same as single registration. */
  lemma RegisterIdempotent<T>(s: seq<T>, o: T)
    ensures Registered(Registered(s, o), o) == Registered(s, o)
  {
  }

  /** Removing an absent observer changes nothing. */
  lemma {:induction false} RemoveAbsent<T>(s: seq<T>, o: T)
    requires o !in s
    ensures Removed(s, o) == s
  {
    if |s| > 0 {
      RemoveAbsent(s[1..], o);
    }
  }

  /** Removing a present observer deletes exactly its first occurrence, the rest keeping order. */
  lemma {:induction false} RemoveSplits<T>(s: seq<T>, o: T, i: nat)
    requires i < |s| && s[i] == o && o !in s[..i]
    ensures Removed(s, o) == s[..i] + s[i + 1..]
  {
    if i > 0 {
      assert s[0] in s[..i];
      assert s[1..][..i - 1] == s[1..i];
      RemoveSplits(s[1..], o, i - 1);
      assert s[..i] == [s[0]] + s[1..][..i - 1];
      assert s[i + 1..] == s[1..][i..];
    }
  }

  lemma HeadNotInTail<T>(s: seq<T>)
    requires |s| > 0 && NoDuplicates(s)
    ensures s[0] !in s[1..] && NoDuplicates(s[1..])
  {
    forall j | 0 <= j < |s| - 1
      ensures s[1..][j] != s[0]
    {
      assert s[1..][j] == s[j + 1];
    }
  }

  lemma NoDuplicatesCons<T>(x: T, t: seq<T>)
    requires NoDuplicates(t) && x !in t
    ensures NoDuplicates([x] + t)
  {
    forall i, j | 0 <= i < j < |t| + 1
      ensures ([x] + t)[i] != ([x] + t)[j]
    {
      assert ([x] + t)[j] == t[j - 1];
      if i > 0 {
        assert ([x] + t)[i] == t[i - 1];
      }
    }
  }

  /** A duplicate-free list stays duplicate-free, loses `o` and keeps everything else. */
  lemma {:induction false} RemoveFromUnique<T>(s: seq<T>, o: T)
    requires NoDuplicates(s)
    ensures NoDuplicates(Removed(s, o))
    ensures o !in Removed(s, o)
    ensures forall x :: x in Removed(s, o) <==> x in s && x != o
  {
    if |s| > 0 {
      HeadNotInTail(s);
      RemoveFromUnique(s[1..], o);
      assert s == [s[0]] + s[1..];
      if s[0] != o {
        NoDuplicatesCons(s[0], Removed(s[1..], o));
      }
    }
  }

  /** One call on the list, as made by any subject that shares it. */
  datatype ListOp<T> = Register(o: T) | Remove(o: T)

  function ApplyOps<T(==)>(s: seq<T>, ops: seq<ListOp<T>>): seq<T>
    decreases |ops|
  {
    if |ops| == 0 then s
    else
      var next := match ops[0]
        case Register(o) => Registered(s, o)
        case Remove(o) => Removed(s, o);
      ApplyOps(next, ops[1..])
  }

  /** Whatever sequence of registrations and removals runs, the list has no duplicates. */
  lemma {:induction false} OpsKeepUnique<T>(s: seq<T>, ops: seq<ListOp<T>>)
    requires NoDuplicates(s)
    ensures NoDuplicates(ApplyOps(s, ops))
    decreases |ops|
  {
    if |ops| > 0 {
      match ops[0]
      case Register(o) => OpsKeepUnique(Registered(s, o), ops[1..]);
      case Remove(o) =>
        RemoveFromUnique(s, o);
        OpsKeepUnique(Removed(s, o), ops[1..]);
    }
  }

  // ---- What one notification delivers ----

  /** The `update` calls `notifyObservers` makes: one per list entry, in list order. */
  function Fanout(observers: seq<Display>, temp: Reading, humidity: Reading, pressure: Reading): (r: seq<Delivery>)
    ensures |r| == |observers|
    ensures forall i :: 0 <= i < |r| ==> r[i] == Delivery(observers[i], temp, humidity, pressure)
  {
    if |observers| == 0 then []
    else [Delivery(observers[0], temp, humidity, pressure)] + Fanout(observers[1..], temp, humidity, pressure)
  }

  function Recipients(ds: seq<Delivery>): (r: seq<Display>)
    ensures |r| == |ds|
  {
    seq(|ds|, i requires 0 <= i < |ds| => ds[i].recipient)
  }

  lemma {:induction false} UniqueCountsOnce<T>(s: seq<T>, o: T)
    requires NoDuplicates(s)
    ensures multiset(s)[o] == if o in s then 1 else 0
  {
    if |s| > 0 {
      assert s == [s[0]] + s[1..];
      HeadNotInTail(s);
      UniqueCountsOnce(s[1..], o);
    }
  }

  /**
   * A notification reaches every registered observer exactly once, and an
   * observer that is not registered (never was, or was removed) not at all.
   */
  lemma NotifiedExactlyOnce(observers: seq<Display>, temp: Reading, humidity: Reading, pressure: Reading, o: Display)
    requires NoDuplicates(observers)
    ensures multiset(Recipients(Fanout(observers, temp, humidity, pressure)))[o] == if o in observers then 1 else 0
  {
    assert Recipients(Fanout(observers, temp, humidity, pressure)) == observers;
    UniqueCountsOnce(observers, o);
  }

  /** Registering twice notifies the same way as registering once. */
  lemma DoubleRegistrationSameFanout(s: seq<Display>, o: Display, temp: Reading, humidity: Reading, pressure: Reading)
    ensures Fanout(Registered(Registered(s, o), o), temp, humidity, pressure)
         == Fanout(Registered(s, o), temp, humidity, pressure)
  {
    RegisterIdempotent(s, o);
  }

  lemma FanoutSnoc(observers: seq<Display>, i: nat, temp: Reading, humidity: Reading, pressure: Reading)
    requires i < |observers|
    ensures Fanout(observers[..i + 1], temp, humidity, pressure)
         == Fanout(observers[..i], temp, humidity, pressure) + [Delivery(observers[i], temp, humidity, pressure)]
  {
    var a := Fanout(observers[..i + 1], temp, humidity, pressure);
    var b := Fanout(observers[..i], temp, humidity, pressure) + [Delivery(observers[i], temp, humidity, pressure)];
    assert |a| == |b|;
    forall k | 0 <= k < |a| ensures a[k] == b[k] {
    }
  }

  // ---- Objects ----

  /** The list object behind the class attribute `Subject.observers`. */
  class ObserverList {
    var observers: seq<Display>

    constructor ()
      ensures observers == []
    {
      observers := [];
    }
  }

  /** `CurrentObserver` or `AnotherObserver`: stores the last readings it was sent. */
  class Display {
    const kind: DisplayKind
    var temp: Reading
    var humidity: Reading
    var pressure: Reading

    /** `__init__`: the new observer registers itself with the subject. */
    constructor (subject: Subject, kind: DisplayKind)
      requires subject.Valid()
      modifies subject.list
      ensures this.kind == kind
      ensures subject.Valid()
      ensures subject.list.observers == old(subject.list.observers) + [this]
    {
      this.kind := kind;
      new;
      subject.RegisterObserver(this);
    }

    /** `update`: copy the delivered readings into this observer's fields. */
    method Update(temp: Reading, humidity: Reading, pressure: Reading)
      modifies this
      ensures this.temp == temp && this.humidity == humidity && this.pressure == pressure
    {
      this.temp := temp;
      this.humidity := humidity;
      this.pressure := pressure;
    }
  }

  class Subject {
    const list: ObserverList
    var temp: Reading
    var humidity: Reading
    var pressure: Reading
    /** Whether `setMeasurements` has run, so that the three readings exist. */
    var measured: bool
    /** Every `update` call this subject has made, in order. */
    ghost var deliveries: seq<Delivery>

    ghost predicate Valid()
      reads this, list
    {
      NoDuplicates(list.observers)
    }

    /** Every registered observer holds exactly this subject's readings. */
    ghost predicate ObserversAgree()
      reads this, list, set o | o in list.observers
    {
      forall o :: o in list.observers ==> o.temp == temp && o.humidity == humidity && o.pressure == pressure
    }

    constructor (list: ObserverList)
      requires NoDuplicates(list.observers)
      ensures this.list == list && !measured && deliveries == []
      ensures Valid()
    {
      this.list := list;
      measured := false;
      deliveries := [];
    }

    method RegisterObserver(o: Display)
      requires Valid()
      modifies list
      ensures Valid()
      ensures list.observers == Registered(old(list.observers), o)
    {
      if o !in list.observers {
        list.observers := list.observers + [o];
      }
    }

    method RemoveObserver(o: Display)
      requires Valid()
      modifies list
      ensures Valid() && o !in list.observers
      ensures list.observers == Removed(old(list.observers), o)
    {
      RemoveFromUnique(list.observers, o);
      if o in list.observers {
        list.observers := Removed(list.observers, o);
      } else {
        RemoveAbsent(list.observers, o);
      }
    }

    /**
     * Call `update` on each registered observer, in list order, with this
     * subject's readings. Reading them before `setMeasurements` fails in the
     * source as soon as there is an observer to send them to.
     */
    method NotifyObservers()
      requires Valid()
      requires measured || list.observers == []
      modifies this`deliveries, set o | o in list.observers
      ensures Valid()
      ensures deliveries == old(deliveries) + Fanout(list.observers, temp, humidity, pressure)
      ensures ObserversAgree()
    {
      var observers := list.observers;
      var i := 0;
      while i < |observers|
        invariant 0 <= i <= |observers|
        invariant deliveries == old(deliveries) + Fanout(observers[..i], temp, humidity, pressure)
        invariant forall j :: 0 <= j < i ==>
          observers[j].temp == temp && observers[j].humidity == humidity && observers[j].pressure == pressure
      {
        observers[i].Update(temp, humidity, pressure);
        FanoutSnoc(observers, i, temp, humidity, pressure);
        deliveries := deliveries + [Delivery(observers[i], temp, humidity, pressure)];
        i := i + 1;
      }
      assert observers[..i] == observers;
    }

    method MeasurementsChanged()
      requires Valid()
      requires measured || list.observers == []
      modifies this`deliveries, set o | o in list.observers
      ensures Valid()
      ensures deliveries == old(deliveries) + Fanout(list.observers, temp, humidity, pressure)
      ensures ObserversAgree()
    {
      NotifyObservers();
    }

    /** Store the three readings, then notify every registered observer of them. */
    method SetMeasurements(temp: Reading, humidity: Reading, pressure: Reading)
      requires Valid()
      modifies this`temp, this`humidity, this`pressure, this`measured, this`deliveries
      modifies set o | o in list.observers
      ensures Valid() && measured
      ensures this.temp == temp && this.humidity == humidity && this.pressure == pressure
      ensures deliveries == old(deliveries) + Fanout(list.observers, temp, humidity, pressure)
      ensures ObserversAgree()
    {
      this.temp := temp;
      this.humidity := humidity;
      this.pressure := pressure;
      measured := true;
      MeasurementsChanged();
    }
  }

  /**
   * `Testit.test`: two observers register themselves, then two rounds of
   * measurements go out, each to A and then to B. The subject uses the
   * class-wide `list`, which is still empty at the script's one call.
   */
  method Testit(list: ObserverList) returns (subject: Subject, a: Display, b: Display)
    requires list.observers == []
    modifies list
    ensures subject.list == list
    ensures a.kind == CurrentDisplay && b.kind == AnotherDisplay
    ensures subject.list.observers == [a, b]
    ensures subject.deliveries == [
      Delivery(a, 3.0, 4.0, 5.0), Delivery(b, 3.0, 4.0, 5.0),
      Delivery(a, 6.0, 7.0, 8.0), Delivery(b, 6.0, 7.0, 8.0)]
    ensures a.temp == 6.0 && a.humidity == 7.0 && a.pressure == 8.0
    ensures b.temp == 6.0 && b.humidity == 7.0 && b.pressure == 8.0
  {
    subject := new Subject(list);
    a := new Display(subject, CurrentDisplay);
    b := new Display(subject, AnotherDisplay);
    subject.SetMeasurements(3.0, 4.0, 5.0);
    subject.SetMeasurements(6.0, 7.0, 8.0);
  }

  /**
   * An observer that unregisters before the measurements are set receives
   * nothing. The subject uses the class-wide `list`, starting empty.
   */
  method RemovedObserverScenario(list: ObserverList) returns (subject: Subject, a: Display, b: Display)
    requires list.observers == []
    modifies list
    ensures subject.list == list
    ensures subject.list.observers == [b]
    ensures subject.deliveries == [Delivery(b, 1.0, 1.0, 1.0)]
  {
    subject := new Subject(list);
    a := new Display(subject, CurrentDisplay);
    subject.RemoveObserver(a);
    b := new Display(subject, AnotherDisplay);
    subject.SetMeasurements(1.0, 1.0, 1.0);
  }
}
