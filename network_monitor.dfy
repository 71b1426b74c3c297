/** The connectivity status shared by the client's components. */
module Interfaces {
  datatype NetworkMode = Online | Offline
}

/**
 * NetworkMonitor: the current status and an estimate of connection
 * quality, and the listeners told about status changes. The browser's
 * `navigator` is passed in as what `navigator.connection` reveals.
 */
module Network {
  import opened Wrappers
  import Interfaces

  datatype NetworkQuality = Offline | Poor | Moderate | Good | Excellent

  /** The fields of `navigator.connection` the probe reads. */
  datatype Connection = Connection(saveData: bool, effectiveType: string)

  /**
   * What the probe finds: no `navigator` global at all (reading it throws a
   * ReferenceError), or a navigator with or without connection information.
   */
  datatype NavigatorInfo = NoNavigator | HasNavigator(connection: Option<Connection>)

  /** A registered status-change callback, known by its identity. */
  datatype Listener = Listener(id: nat)

  /** One call of a listener with the status it was given. */
  datatype Notification = Notification(listener: Listener, status: Interfaces.NetworkMode)

  /** The answer of `probe()` for the current status. */
  function ProbeQuality(status: Interfaces.NetworkMode, nav: NavigatorInfo): (q: NetworkQuality)
    ensures q == Offline <==> status == Interfaces.Offline
    ensures q != Excellent
  {
    if status == Interfaces.Offline then Offline
    else match nav
      case NoNavigator => Poor
      case HasNavigator(None) => Good
      case HasNavigator(Some(c)) =>
        if c.saveData then Poor
        else if c.effectiveType == "4g" then Good
        else if c.effectiveType == "3g" then Moderate
        else if c.effectiveType == "2g" then Poor
        else Good
  }

  /** Whether `probe()` writes `currentQuality`: only when offline and on the fallback path. */
  predicate ProbeSetsQuality(status: Interfaces.NetworkMode, nav: NavigatorInfo) {
    || status == Interfaces.Offline
    || nav == HasNavigator(None)
    || (nav.HasNavigator? && nav.connection.Some?
        && !nav.connection.value.saveData
        && nav.connection.value.effectiveType !in {"4g", "3g", "2g"})
  }

  /** The answers of the probe while online: derived from the connection, or POOR when reading `navigator` throws. */
  lemma ProbeConnectionMapping(c: Connection)
    ensures ProbeQuality(Interfaces.Online, NoNavigator) == Poor
    ensures c.saveData ==> ProbeQuality(Interfaces.Online, HasNavigator(Some(c))) == Poor
    ensures !c.saveData && c.effectiveType == "4g" ==> ProbeQuality(Interfaces.Online, HasNavigator(Some(c))) == Good
    ensures !c.saveData && c.effectiveType == "3g" ==> ProbeQuality(Interfaces.Online, HasNavigator(Some(c))) == Moderate
    ensures !c.saveData && c.effectiveType == "2g" ==> ProbeQuality(Interfaces.Online, HasNavigator(Some(c))) == Poor
    ensures !c.saveData && c.effectiveType !in {"4g", "3g", "2g"} ==> ProbeQuality(Interfaces.Online, HasNavigator(Some(c))) == Good
  {
  }

  /** When the probe does write `currentQuality`, it writes the answer it returns, and online that answer is GOOD. */
  lemma ProbeWritesOnlyGoodOrOffline(status: Interfaces.NetworkMode, nav: NavigatorInfo)
    ensures ProbeSetsQuality(status, nav) && status == Interfaces.Online ==> ProbeQuality(status, nav) == Good
    ensures ProbeSetsQuality(status, nav) && status == Interfaces.Offline ==> ProbeQuality(status, nav) == Offline
  {
  }

  /**
   * The quality a monitor built in a browser starts with, as written: the
   * default GOOD, because the initial probe's answer is dropped and the
   * probe only stores GOOD itself; offline there is no probe at all.
   */
  function InitialQualityAsWritten(onLine: bool, nav: NavigatorInfo): (q: NetworkQuality)
    ensures q == Good
  {
    var status := if onLine then Interfaces.Online else Interfaces.Offline;
    if status == Interfaces.Online && ProbeSetsQuality(status, nav) then ProbeQuality(status, nav) else Good
  }

  /** A monitor started offline claims GOOD quality, and one started on 2g ignores the POOR answer of its probe. */
  lemma InitialQualityIgnoresProbe()
    ensures InitialQualityAsWritten(false, HasNavigator(None)) != Offline
    ensures var nav := HasNavigator(Some(Connection(false, "2g")));
      InitialQualityAsWritten(true, nav) != ProbeQuality(Interfaces.Online, nav)
  {
  }

  /** The intended starting quality: the answer of the initial probe, which is OFFLINE exactly when offline. */
  function InitialQuality(onLine: bool, nav: NavigatorInfo): (q: NetworkQuality)
    ensures q == Offline <==> !onLine
    ensures onLine ==> q == ProbeQuality(Interfaces.Online, nav)
  {
    ProbeQuality(if onLine then Interfaces.Online else Interfaces.Offline, nav)
  }

  class NetworkMonitor {
    var status: Interfaces.NetworkMode
    var quality: NetworkQuality
    var listeners: seq<Listener>

    /** Outside a browser (no `window`): online, GOOD, no listeners. */
    constructor()
      ensures status == Interfaces.Online && quality == Good && listeners == []
    {
      status := Interfaces.Online;
      quality := Good;
      listeners := [];
    }

    /**
     * The constructor in a browser, as written: the status follows
     * `navigator.onLine`, and only an online monitor probes, dropping the
     * answer. In a browser `navigator` exists, since `navigator.onLine` is
     * read first. The `online`/`offline` event wiring is not modelled.
     */
    constructor InBrowserAsWritten(onLine: bool, nav: NavigatorInfo)
      requires nav.HasNavigator?
      ensures status == (if onLine then Interfaces.Online else Interfaces.Offline)
      ensures quality == InitialQualityAsWritten(onLine, nav) && listeners == []
    {
      status := if onLine then Interfaces.Online else Interfaces.Offline;
      quality := Good;
      listeners := [];
      new;
      if status == Interfaces.Online {
        var _ := Probe(nav);
      }
    }

    /** The constructor in a browser, corrected: the initial probe always runs and its answer is kept. */
    constructor InBrowser(onLine: bool, nav: NavigatorInfo)
      requires nav.HasNavigator?
      ensures status == (if onLine then Interfaces.Online else Interfaces.Offline)
      ensures quality == InitialQuality(onLine, nav) && listeners == []
    {
      status := if onLine then Interfaces.Online else Interfaces.Offline;
      quality := Good;
      listeners := [];
      new;
      var q := Probe(nav);
      quality := q;
    }

    /** `onStatusChange(callback)`: registers one more listener, last. */
    method OnStatusChange(callback: Listener)
      modifies this`listeners
      ensures listeners == old(listeners) + [callback]
    {
      listeners := listeners + [callback];
    }

    function GetStatus(): Interfaces.NetworkMode
      reads this
    {
      status
    }

    function GetQuality(): NetworkQuality
      reads this
    {
      quality
    }

    /** `probe()`: offline answers OFFLINE; otherwise the connection decides, with GOOD as the fallback. */
    method Probe(nav: NavigatorInfo) returns (q: NetworkQuality)
      modifies this`quality
      ensures q == ProbeQuality(status, nav)
      ensures quality == if ProbeSetsQuality(status, nav) then q else old(quality)
    {
      if status == Interfaces.Offline {
        quality := Offline;
        return Offline;
      }
      match nav
      case NoNavigator =>
        // reading `navigator` throws; the catch answers POOR
        return Poor;
      case HasNavigator(conn) =>
        if conn.Some? {
          var c := conn.value;
          if c.saveData { return Poor; }
          if c.effectiveType == "4g" { return Good; }
          if c.effectiveType == "3g" { return Moderate; }
          if c.effectiveType == "2g" { return Poor; }
        }
        quality := Good;
        return Good;
    }

    /**
     * `updateStatus(status)`: nothing happens unless the status changes.
     * A change records the new status; going offline sets quality OFFLINE,
     * going online starts a probe whose answer is returned as `pending`
     * (the source assigns it later, see SettleProbe). Then every listener
     * is called once with the new status, in registration order.
     */
    method UpdateStatus(s: Interfaces.NetworkMode, nav: NavigatorInfo)
      returns (notified: seq<Notification>, pending: Option<NetworkQuality>)
      modifies this`status, this`quality
      ensures s == old(status) ==>
        notified == [] && pending == None && status == old(status) && quality == old(quality)
      ensures s != old(status) ==> status == s
      ensures s != old(status) ==> |notified| == |listeners|
      ensures s != old(status) ==> forall i :: 0 <= i < |listeners| ==> notified[i] == Notification(listeners[i], s)
      ensures s != old(status) && s == Interfaces.Offline ==> quality == Offline && pending == None
      ensures s != old(status) && s == Interfaces.Online ==>
        pending == Some(ProbeQuality(s, nav))
        && quality == if ProbeSetsQuality(s, nav) then Good else old(quality)
    {
      notified, pending := [], None;
      if status != s {
        status := s;
        if s == Interfaces.Offline {
          quality := Offline;
        } else {
          var q := Probe(nav);
          pending := Some(q);
        }
        for i := 0 to |listeners|
          invariant |notified| == i
          invariant forall j :: 0 <= j < i ==> notified[j] == Notification(listeners[j], s)
        {
          notified := notified + [Notification(listeners[i], s)];
        }
      }
    }

    /** The continuation `q => this.currentQuality = q` of the probe started by UpdateStatus. */
    method SettleProbe(q: NetworkQuality)
      modifies this`quality
      ensures quality == q
    {
      quality := q;
    }
  }
}
