/**
 * The `LocalNotification` facade: a live table of defaults, descriptor
 * normalisation in place, and one dispatch to the native executor per public
 * operation.  The executor is not modelled; each `cordova.exec` call is
 * appended to a ghost log as the command, its arguments as the executor
 * receives them, and whether a result callback was passed.
 */
module Facade {
  import opened JsValue
  import opened Descriptor

  /** A JavaScript object handed to or held by the facade; callers may share it. */
  class JsObject {
    var props: Props

    constructor (p: Props)
      ensures props == p
    {
      props := p;
    }
  }

  /** The argument of `addMulti`: `{notifications: [...], cancelAll: ...}`. */
  class Batch {
    var notifications: array?<Props>  // null: the field is missing or holds a falsy value
    var cancelAll: Value

    constructor (notifications: array?<Props>, cancelAll: Value)
      ensures this.notifications == notifications && this.cancelAll == cancelAll
    {
      this.notifications := notifications;
      this.cancelAll := cancelAll;
    }
  }

  /** One argument of a dispatched command, as the executor receives it. */
  datatype Arg =
    | Options(props: Props)
    | BatchArg(notifications: Option<seq<Props>>, cancelAll: Value)
    | Text(s: string)

  /** `cordova.exec(callback, null, 'LocalNotification', action, args)` */
  datatype Call = Call(action: string, args: seq<Arg>, withCallback: bool)

  /** How a public operation returns: normally, or by a TypeError it does not catch. */
  datatype Result<T> = Returned(value: T) | ThrewTypeError

  class LocalNotification {
    /** `_defaults`: created once and never replaced; its properties change in place. */
    const defaults: JsObject
    /** The commands sent to the native executor, oldest first. */
    ghost var calls: seq<Call>

    constructor ()
      ensures fresh(defaults) && defaults.props == BaseDefaults()
      ensures calls == []
    {
      defaults := new JsObject(BaseDefaults());
      calls := [];
    }

    /** Returns the live defaults object itself, not a copy. */
    method GetDefaults() returns (d: JsObject)
      ensures d == defaults
    {
      d := defaults;
    }

    /** Overwrites each existing default for which `newDefaults` holds a defined value. */
    method SetDefaults(newDefaults: JsObject)
      modifies defaults
      ensures defaults.props == Override(old(defaults.props), old(newDefaults.props))
      ensures AllDefined(old(defaults.props)) ==> AllDefined(defaults.props)
    {
      ghost var d := defaults.props;
      ghost var n := newDefaults.props;
      var keys := defaults.props.Keys;
      while keys != {}
        invariant keys <= d.Keys
        invariant newDefaults == defaults ==> n == d
        invariant newDefaults == defaults || newDefaults.props == n
        invariant defaults.props == map k | k in d :: if k !in keys && Get(n, k) != Undefined then n[k] else d[k]
        decreases keys
      {
        var key :| key in keys;
        if Get(newDefaults.props, key) != Undefined {
          defaults.props := defaults.props[key := newDefaults.props[key]];
        }
        keys := keys - {key};
      }
      if AllDefined(d) {
        OverridePreservesDefined(d, n);
      }
    }

    /** Copies into `options` each default whose key `options` leaves undefined; returns `options`. */
    method MergeWithDefaults(options: JsObject) returns (r: JsObject)
      modifies options
      ensures r == options
      ensures options.props == Merge(old(defaults.props), old(options.props))
      ensures defaults.props == old(defaults.props)
    {
      ghost var d := defaults.props;
      ghost var o := options.props;
      ghost var done: set<string> := {};
      var keys := defaults.props.Keys;
      while keys != {}
        invariant done + keys == d.Keys && done !! keys
        invariant defaults.props == d
        invariant options == defaults ==> o == d
        invariant options.props == MergeKeys(d, o, done)
        decreases keys
      {
        var key :| key in keys;
        MergeKeysStep(d, o, done, key);
        if Get(options.props, key) == Undefined {
          options.props := options.props[key := defaults.props[key]];
        }
        keys := keys - {key};
        done := done + {key};
      }
      assert done == d.Keys;
      r := options;
    }

    /** Adds the fields of the host platform `platform` (`device.platform`) to the defaults. */
    method ApplyPlatformSpecificOptions(platform: string)
      modifies defaults
      ensures defaults.props == WithPlatform(old(defaults.props), platform)
      ensures AllDefined(old(defaults.props)) ==> AllDefined(defaults.props)
    {
      ghost var before := defaults.props;
      var d := defaults;
      if platform == "Android" {
        d.props := d.props["icon" := Str("icon")];
        d.props := d.props["smallIcon" := Null];
        d.props := d.props["ongoing" := Bool(false)];
        d.props := d.props["sound" := Str("TYPE_NOTIFICATION")];
      } else if platform == "iOS" {
        d.props := d.props["sound" := Str("")];
      } else if platform == "WinCE" || platform == "Win32NT" {
        d.props := d.props["smallImage" := Null];
        d.props := d.props["image" := Null];
        d.props := d.props["wideImage" := Null];
      }
      if AllDefined(before) {
        WithPlatformPreservesDefined(before, platform);
      }
    }

    /**
     * The steps `add` and `addMulti` apply to one descriptor in place, at
     * clock reading `now` (milliseconds); `ok` is false when `getTime` threw.
     * When `options` is the defaults object itself, the defaults change with it.
     */
    method NormalizeInPlace(options: JsObject, now: int) returns (ok: bool)
      modifies options
      ensures options.props == Normalize(old(defaults.props), now, old(options.props)).obj
      ensures ok == Normalize(old(defaults.props), now, old(options.props)).Normal?
      ensures defaults.props == if options == defaults then options.props else old(defaults.props)
    {
      var o := MergeWithDefaults(options);
      if Truthy(Get(o.props, "id")) {
        o.props := o.props["id" := Str(ToText(Get(o.props, "id")).value)];
      }
      if Get(o.props, "date") == Undefined {
        o.props := o.props["date" := Date(now)];
      }
      var date := Get(o.props, "date");
      if TypeOf(date) == "object" {
        match date
        case Date(ms) =>
          o.props := o.props["date" := Num(EpochSeconds(ms))];
          ok := true;
        case _ =>
          ok := false;
      } else {
        ok := true;
      }
    }

    /**
     * `add(options)`: normalises `options` in place, dispatches one `'add'`
     * command and returns the normalised `id`.  The result callback is passed
     * when the platform's index in `['WinCE', 'Win32NT']` is truthy, that is on
     * every platform but `'WinCE'` (see `WantsCallbackAsWritten`).
     */
    method Add(options: JsObject, platform: string, now: int) returns (r: Result<Value>)
      modifies this, options
      ensures var c := Normalize(old(defaults.props), now, old(options.props));
              && options.props == c.obj
              && defaults.props == (if options == defaults then c.obj else old(defaults.props))
              && (c.Normal? ==> r == Returned(Get(c.obj, "id"))
                                && calls == old(calls) + [Call("add", [Options(c.obj)], WantsCallbackAsWritten(platform))])
              && (c.Abrupt? ==> r == ThrewTypeError && calls == old(calls))
    {
      var ok := NormalizeInPlace(options, now);
      if !ok {
        return ThrewTypeError;
      }
      var withCallback := WantsCallbackAsWritten(platform);
      calls := calls + [Call("add", [Options(options.props)], withCallback)];
      r := Returned(Get(options.props, "id"));
    }

    /** One turn of the loop of `addMulti`: normalises `a[i]`, as a fresh object, and stores it back. */
    method NormalizeAt(a: array<Props>, i: nat, now: int) returns (ok: bool)
      requires i < a.Length
      modifies a
      ensures a[i] == Normalize(defaults.props, now, old(a[i])).obj
      ensures ok == Normalize(defaults.props, now, old(a[i])).Normal?
      ensures forall k :: 0 <= k < a.Length && k != i ==> a[k] == old(a[k])
    {
      var notification := new JsObject(a[i]);
      ok := NormalizeInPlace(notification, now);
      a[i] := notification.props;
    }

    /**
     * The loop of `addMulti`: normalises the descriptors of `a` in place, in
     * order, each as a fresh object.  `stop` is the index at which `getTime`
     * threw, or `a.Length` when none did: the descriptors before it are
     * normalised, the one at it keeps the changes made before the throw, and
     * the rest are untouched.
     */
    method NormalizeEach(a: array<Props>, clock: nat -> int) returns (completed: bool, ghost stop: nat)
      modifies a
      ensures stop <= a.Length && (completed <==> stop == a.Length)
      ensures forall k :: 0 <= k < stop ==> Normalize(defaults.props, clock(k), old(a[k])).Normal?
      ensures forall k :: 0 <= k < stop ==> a[k] == Normalize(defaults.props, clock(k), old(a[k])).obj
      ensures stop < a.Length ==> Normalize(defaults.props, clock(stop), old(a[stop])).Abrupt?
      ensures stop < a.Length ==> a[stop] == Normalize(defaults.props, clock(stop), old(a[stop])).obj
      ensures forall k :: stop < k < a.Length ==> a[k] == old(a[k])
    {
      ghost var d := defaults.props;
      ghost var before := a[..];
      var i := 0;
      while i < a.Length
        invariant 0 <= i <= a.Length
        invariant defaults.props == d
        invariant forall k :: 0 <= k < i ==> Normalize(d, clock(k), before[k]).Normal?
        invariant forall k :: 0 <= k < i ==> a[k] == Normalize(d, clock(k), before[k]).obj
        invariant forall k :: i <= k < a.Length ==> a[k] == before[k]
      {
        var ok := NormalizeAt(a, i, clock(i));
        if !ok {
          return false, i;
        }
        i := i + 1;
      }
      completed, stop := true, i;
    }

    /**
     * `addMulti(options)`: when `notifications` is present, normalises each of
     * its descriptors in place, in order, then makes a falsy `cancelAll`
     * false; when it returns normally, it has dispatched one `'addMulti'`
     * command, with no result callback, carrying the batch as it then is.  A
     * descriptor whose `date` makes `getTime` throw ends the call (see
     * `NormalizeEach`) before `cancelAll` is touched, and nothing is dispatched.
     */
    method AddMulti(options: Batch, clock: nat -> int) returns (completed: bool)
      modifies this, options, options.notifications
      ensures options.notifications == old(options.notifications)
      ensures defaults.props == old(defaults.props)
      ensures var a := options.notifications;
              a == null ==>
                && completed
                && options.cancelAll == old(options.cancelAll)
                && calls == old(calls) + [Call("addMulti", [BatchArg(None, options.cancelAll)], false)]
      ensures var a := options.notifications;
              var d := defaults.props;
              a != null ==>
                && (completed <==> forall i :: 0 <= i < a.Length ==> Normalize(d, clock(i), old(a[i])).Normal?)
                && (completed ==>
                      && a[..] == NormalizeAll(d, clock, old(a[..]))
                      && options.cancelAll == (if Truthy(old(options.cancelAll)) then old(options.cancelAll) else Bool(false))
                      && calls == old(calls) + [Call("addMulti", [BatchArg(Some(a[..]), options.cancelAll)], false)])
                && (!completed ==>
                      && options.cancelAll == old(options.cancelAll)
                      && calls == old(calls)
                      && exists j :: 0 <= j < a.Length
                                     && (forall i :: 0 <= i < j ==> Normalize(d, clock(i), old(a[i])).Normal?)
                                     && Normalize(d, clock(j), old(a[j])).Abrupt?
                                     && a[..j] == NormalizeAll(d, clock, old(a[..j]))
                                     && a[j] == Normalize(d, clock(j), old(a[j])).obj
                                     && a[j + 1..] == old(a[j + 1..]))
    {
      var a := options.notifications;
      if a != null {
        ghost var stop;
        completed, stop := NormalizeEach(a, clock);
        if !completed {
          assert a[..stop] == NormalizeAll(defaults.props, clock, old(a[..stop]));
          assert a[stop + 1..] == old(a[stop + 1..]);
          return;
        }
        assert a[..] == NormalizeAll(defaults.props, clock, old(a[..]));
        if TypeOf(options.cancelAll) == "undefined" || !Truthy(options.cancelAll) {
          options.cancelAll := Bool(false);
        }
      }
      calls := calls + [Call("addMulti", [BatchArg(if a == null then None else Some(a[..]), options.cancelAll)], false)];
      completed := true;
    }

    /** `cancel(id)`: dispatches one `'cancel'` command with `[id.toString()]`. */
    method Cancel(id: Value) returns (r: Result<()>)
      modifies this
      ensures r.ThrewTypeError? <==> id.Undefined? || id.Null?
      ensures calls == if r.ThrewTypeError? then old(calls)
                       else old(calls) + [Call("cancel", [Text(ToText(id).value)], false)]
    {
      var text := ToText(id);
      if text.None? {
        return ThrewTypeError;
      }
      calls := calls + [Call("cancel", [Text(text.value)], false)];
      r := Returned(());
    }

    /** `cancelAll()`: dispatches one `'cancelAll'` command with no arguments. */
    method CancelAll()
      modifies this
      ensures calls == old(calls) + [Call("cancelAll", [], false)]
    {
      calls := calls + [Call("cancelAll", [], false)];
    }

    /** `hasPermission(callback, scope)`: dispatches one `'hasPermission'` command with a result callback. */
    method HasPermission()
      modifies this
      ensures calls == old(calls) + [Call("hasPermission", [], true)]
    {
      calls := calls + [Call("hasPermission", [], true)];
    }

    /** `promptForPermission()`: dispatches one `'promptForPermission'` command. */
    method PromptForPermission()
      modifies this
      ensures calls == old(calls) + [Call("promptForPermission", [], false)]
    {
      calls := calls + [Call("promptForPermission", [], false)];
    }

    /** `ready()`: dispatches one `'ready'` command. */
    method Ready()
      modifies this
      ensures calls == old(calls) + [Call("ready", [], false)]
    {
      calls := calls + [Call("ready", [], false)];
    }
  }
}
