/**
 * Notification descriptors and the default table as property maps, and the
 * pure rules the facade applies to them: the seed defaults, the override of
 * `setDefaults`, the platform additions, the merge with defaults and the
 * normalisation of `id` and `date` before a descriptor is dispatched.
 *
 * A key absent from a map and a key present with `Undefined` both read as
 * `undefined`; only present keys are visited by a `for (key in obj)` loop.
 */
module Descriptor {
  import opened JsValue

  type Props = map<string, Value>

  /** `obj[k]` */
  function Get(o: Props, k: string): Value {
    if k in o then o[k] else Undefined
  }

  /** Every key present in `d` holds a defined value. */
  predicate AllDefined(d: Props) {
    forall k :: k in d ==> d[k] != Undefined
  }

  /** The table a fresh facade starts with. */
  function BaseDefaults(): (d: Props)
    ensures d.Keys == {"message", "title", "autoCancel", "badge", "id", "json", "repeat"}
    ensures AllDefined(d)
  {
    map[
      "message" := Str(""),
      "title" := Str(""),
      "autoCancel" := Bool(false),
      "badge" := Num(0),
      "id" := Str("0"),
      "json" := Str(""),
      "repeat" := Str("")
    ]
  }

  // ---------------------------------------------------------------- setDefaults

  /** The defaults after `setDefaults(n)`: a defined `n[k]` replaces `d[k]` for each key of `d`. */
  function Override(d: Props, n: Props): Props {
    map k | k in d :: if Get(n, k) != Undefined then n[k] else d[k]
  }

  /** `setDefaults` never adds nor removes a key; keys of `n` outside `d` are ignored. */
  lemma OverrideKeepsKeys(d: Props, n: Props)
    ensures Override(d, n).Keys == d.Keys
    ensures forall k :: k in n && k !in d ==> k !in Override(d, n)
  {
  }

  /** Each default key takes `n[k]` if that is defined and keeps its old value otherwise. */
  lemma OverrideValues(d: Props, n: Props, k: string)
    requires k in d
    ensures Get(n, k) != Undefined ==> Override(d, n)[k] == Get(n, k)
    ensures Get(n, k) == Undefined ==> Override(d, n)[k] == d[k]
  {
  }

  /** Overriding with the same map twice is overriding once. */
  lemma OverrideIdempotent(d: Props, n: Props)
    ensures Override(Override(d, n), n) == Override(d, n)
  {
  }

  /** `setDefaults(getDefaults())` changes nothing. */
  lemma OverrideSelf(d: Props)
    ensures Override(d, d) == d
  {
  }

  /** `setDefaults` cannot make a defined default undefined. */
  lemma OverridePreservesDefined(d: Props, n: Props)
    requires AllDefined(d)
    ensures AllDefined(Override(d, n))
  {
  }

  // ------------------------------------------------ applyPlatformSpecificOptions

  /** The keys `applyPlatformSpecificOptions` sets on platform `p`. */
  function PlatformKeys(p: string): set<string> {
    if p == "Android" then {"icon", "smallIcon", "ongoing", "sound"}
    else if p == "iOS" then {"sound"}
    else if p == "WinCE" || p == "Win32NT" then {"smallImage", "image", "wideImage"}
    else {}
  }

  /** The defaults after `applyPlatformSpecificOptions` on platform `p`. */
  function WithPlatform(d: Props, p: string): Props {
    if p == "Android" then
      d["icon" := Str("icon")]["smallIcon" := Null]["ongoing" := Bool(false)]["sound" := Str("TYPE_NOTIFICATION")]
    else if p == "iOS" then
      d["sound" := Str("")]
    else if p == "WinCE" || p == "Win32NT" then
      d["smallImage" := Null]["image" := Null]["wideImage" := Null]
    else
      d
  }

  /** Exactly the platform's keys are added or set; every other key keeps its value. */
  lemma WithPlatformKeys(d: Props, p: string)
    ensures p == "Android" ==> WithPlatform(d, p).Keys == d.Keys + {"icon", "smallIcon", "ongoing", "sound"}
    ensures p == "iOS" ==> WithPlatform(d, p).Keys == d.Keys + {"sound"}
    ensures p == "WinCE" || p == "Win32NT" ==>
              WithPlatform(d, p).Keys == d.Keys + {"smallImage", "image", "wideImage"}
    ensures p !in {"Android", "iOS", "WinCE", "Win32NT"} ==> WithPlatform(d, p) == d
    ensures WithPlatform(d, p).Keys == d.Keys + PlatformKeys(p)
    ensures forall k :: k in d && k !in PlatformKeys(p) ==> WithPlatform(d, p)[k] == d[k]
  {
  }

  /** The values the platform sets. */
  lemma WithPlatformValues(d: Props, p: string)
    ensures p == "Android" ==>
              var r := WithPlatform(d, p);
              r["icon"] == Str("icon") && r["smallIcon"] == Null && r["ongoing"] == Bool(false)
              && r["sound"] == Str("TYPE_NOTIFICATION")
    ensures p == "iOS" ==> WithPlatform(d, p)["sound"] == Str("")
    ensures p == "WinCE" || p == "Win32NT" ==>
              var r := WithPlatform(d, p);
              r["smallImage"] == Null && r["image"] == Null && r["wideImage"] == Null
  {
  }

  /** Running the platform step twice is running it once. */
  lemma WithPlatformIdempotent(d: Props, p: string)
    ensures WithPlatform(WithPlatform(d, p), p) == WithPlatform(d, p)
  {
  }

  /** The platform step keeps every default defined. */
  lemma WithPlatformPreservesDefined(d: Props, p: string)
    requires AllDefined(d)
    ensures AllDefined(WithPlatform(d, p))
  {
  }

  // ---------------------------------------------------------- mergeWithDefaults

  /** `o` after the merge loop has visited the default keys `ks`. */
  function MergeKeys(d: Props, o: Props, ks: set<string>): Props {
    o + map k | k in ks && k in d && Get(o, k) == Undefined :: d[k]
  }

  /** One more turn of the merge loop, on the default key `k`. */
  lemma MergeKeysStep(d: Props, o: Props, ks: set<string>, k: string)
    requires k in d && k !in ks
    ensures Get(MergeKeys(d, o, ks), k) == Get(o, k)
    ensures MergeKeys(d, o, ks + {k}) ==
              if Get(o, k) == Undefined then MergeKeys(d, o, ks)[k := d[k]] else MergeKeys(d, o, ks)
  {
  }

  /** A descriptor after `mergeWithDefaults`: each default key the descriptor leaves undefined is copied in. */
  function Merge(d: Props, o: Props): (r: Props)
    ensures r.Keys == o.Keys + d.Keys
  {
    MergeKeys(d, o, d.Keys)
  }

  /**
   * The merge keeps every value the descriptor defines, fills every default
   * key it leaves undefined, and touches no key outside the defaults.
   */
  lemma MergeValues(d: Props, o: Props)
    ensures var r := Merge(d, o);
            && (forall k :: Get(o, k) != Undefined ==> Get(r, k) == Get(o, k))
            && (forall k :: k in d && Get(o, k) == Undefined ==> r[k] == d[k])
            && (forall k :: k !in d ==> Get(r, k) == Get(o, k))
            && (AllDefined(d) ==> forall k :: k in d ==> Get(r, k) != Undefined)
  {
  }

  /** Merging twice gives the map merging once gives. */
  lemma {:induction false} MergeIdempotent(d: Props, o: Props)
    ensures Merge(d, Merge(d, o)) == Merge(d, o)
  {
    var m := Merge(d, o);
    MergeValues(d, o);
    MergeValues(d, m);
    forall k | k in d && Get(m, k) == Undefined
      ensures m[k] == d[k]
    {
    }
  }

  /** `mergeWithDefaults(getDefaults())` changes nothing. */
  lemma MergeSelf(d: Props)
    ensures Merge(d, d) == d
  {
  }

  /** A descriptor that defines every default key, or holds the default's own value, is its own merge. */
  lemma MergeStable(d: Props, o: Props)
    requires forall k :: k in d ==> k in o && (o[k] == Undefined ==> d[k] == Undefined)
    ensures Merge(d, o) == o
  {
  }

  // -------------------------------------------------------------- add / addMulti

  /** `if (options.id) { options.id = options.id.toString(); }` */
  function StringifyId(o: Props): (r: Props)
    ensures r.Keys == o.Keys
    ensures Truthy(Get(o, "id")) ==> Get(r, "id") == Str(ToText(Get(o, "id")).value) && Truthy(Get(r, "id"))
    ensures !Truthy(Get(o, "id")) ==> r == o
  {
    var id := Get(o, "id");
    if Truthy(id) then o["id" := Str(ToText(id).value)] else o
  }

  /** Stringifying `id` touches no other key. */
  lemma StringifyIdOthers(o: Props)
    ensures forall k :: k != "id" ==> Get(StringifyId(o), k) == Get(o, k)
  {
  }

  /** `if (options.date === undefined) { options.date = new Date(); }`, with `now` the clock in milliseconds. */
  function DefaultDate(o: Props, now: int): (r: Props)
    ensures r.Keys == o.Keys + {"date"}
    ensures Get(r, "date") == if Get(o, "date") == Undefined then Date(now) else Get(o, "date")
  {
    if Get(o, "date") == Undefined then o["date" := Date(now)] else o
  }

  /** Defaulting `date` touches no other key. */
  lemma DefaultDateOthers(o: Props, now: int)
    ensures forall k :: k != "date" ==> Get(DefaultDate(o, now), k) == Get(o, k)
  {
  }

  /**
   * How control leaves the normalisation of one descriptor, with the
   * descriptor's state at that point: `Abrupt` when `date.getTime()` throws
   * a TypeError (`date` is `null` or an object that is not a `Date`).
   */
  datatype Completion = Normal(obj: Props) | Abrupt(obj: Props)

  /** `if (typeof options.date == 'object') { options.date = Math.round(options.date.getTime()/1000); }` */
  function ConvertDate(o: Props): (c: Completion)
    ensures c.obj.Keys == o.Keys
    ensures c.Abrupt? <==> Get(o, "date").Null? || Get(o, "date").Object?
    ensures c.Abrupt? ==> c.obj == o
    ensures Get(o, "date").Date? ==> Get(c.obj, "date") == Num(EpochSeconds(Get(o, "date").ms))
    ensures TypeOf(Get(o, "date")) != "object" ==> c == Normal(o)
  {
    var v := Get(o, "date");
    if TypeOf(v) == "object" then
      match v
      case Date(ms) => Normal(o["date" := Num(EpochSeconds(ms))])
      case _ => Abrupt(o)
    else
      Normal(o)
  }

  /** Converting `date` touches no other key. */
  lemma ConvertDateOthers(o: Props)
    ensures forall k :: k != "date" ==> Get(ConvertDate(o).obj, k) == Get(o, k)
  {
  }

  /**
   * The steps `add` and `addMulti` apply to one descriptor `o` against the
   * defaults `d` at clock reading `now` (milliseconds).
   */
  function Normalize(d: Props, now: int, o: Props): Completion {
    ConvertDate(DefaultDate(StringifyId(Merge(d, o)), now))
  }

  /**
   * Each descriptor of a batch normalised on its own, in order; the one at
   * index `i` sees the clock reading `clock(i)` of its own loop turn.
   */
  function NormalizeAll(d: Props, clock: nat -> int, batch: seq<Props>): (r: seq<Props>)
    ensures |r| == |batch|
  {
    seq(|batch|, i requires 0 <= i < |batch| => Normalize(d, clock(i), batch[i]).obj)
  }

  /**
   * The normalised descriptor carries every default key, keeps every value the
   * caller defined other than `id` and `date`, and leaves keys outside the
   * defaults as they were.
   */
  lemma NormalizeFields(d: Props, now: int, o: Props)
    ensures var r := Normalize(d, now, o).obj;
            && r.Keys == o.Keys + d.Keys + {"date"}
            && (forall k :: k != "id" && k != "date" && Get(o, k) != Undefined ==> Get(r, k) == Get(o, k))
            && (forall k :: k != "id" && k != "date" && k in d && Get(o, k) == Undefined ==> r[k] == d[k])
            && (forall k :: k != "id" && k != "date" && k !in d ==> Get(r, k) == Get(o, k))
  {
    var m := Merge(d, o);
    var t := DefaultDate(StringifyId(m), now);
    MergeValues(d, o);
    StringifyIdOthers(m);
    DefaultDateOthers(StringifyId(m), now);
    ConvertDateOthers(t);
  }

  /**
   * `id` is stringified exactly when the merged id is truthy, so a truthy
   * `id` leaves as a non-empty string and a falsy one (`0`, `''`, `false`,
   * `null`, `undefined`) leaves unchanged.
   */
  lemma NormalizeId(d: Props, now: int, o: Props)
    ensures var id := Get(Merge(d, o), "id");
            var r := Get(Normalize(d, now, o).obj, "id");
            && (Truthy(id) ==> r == Str(ToText(id).value) && r.s != "")
            && (!Truthy(id) ==> r == id)
            && (Truthy(r) <==> Truthy(id))
  {
  }

  /**
   * `date` leaves as whole epoch seconds when it was a `Date` or missing
   * (then the clock is used); a number, string or boolean passes through; a
   * `null` or a non-`Date` object makes `getTime` throw.
   */
  lemma NormalizeDate(d: Props, now: int, o: Props)
    ensures var v := Get(Merge(d, o), "date");
            var c := Normalize(d, now, o);
            && (c.Abrupt? <==> v.Null? || v.Object?)
            && (v.Undefined? ==> c == Normal(c.obj) && Get(c.obj, "date") == Num(EpochSeconds(now)))
            && (v.Date? ==> c == Normal(c.obj) && Get(c.obj, "date") == Num(EpochSeconds(v.ms)))
            && (v.Bool? || v.Num? || v.Str? ==> c == Normal(c.obj) && Get(c.obj, "date") == v)
  {
  }

  /**
   * A non-zero numeric `id` leaves as its decimal text, and that text reads
   * back as the number: the id `add` returns names the notification the
   * caller asked for.
   */
  lemma NormalizeNumericId(d: Props, now: int, o: Props, n: int)
    requires Get(Merge(d, o), "id") == Num(n) && n != 0
    ensures var r := Get(Normalize(d, now, o).obj, "id");
            && r == Str(IntDecimal(n))
            && (r.s[0] == '-' ==> AllDigits(r.s[1..])) && (r.s[0] != '-' ==> AllDigits(r.s))
            && ParseInt(r.s) == n
  {
    NormalizeId(d, now, o);
    IntDecimalRoundTrip(n);
  }

  /**
   * Against defaults that are all defined, a descriptor that normalises
   * without a throw leaves with every default key and `date` defined.
   */
  lemma NormalizeDefined(d: Props, now: int, o: Props)
    requires AllDefined(d)
    requires Normalize(d, now, o).Normal?
    ensures var r := Normalize(d, now, o).obj;
            (forall k :: k in d ==> Get(r, k) != Undefined) && Get(r, "date") != Undefined
  {
    var m := Merge(d, o);
    var r := Normalize(d, now, o).obj;
    MergeValues(d, o);
    NormalizeId(d, now, o);
    NormalizeDate(d, now, o);
    forall k | k in d
      ensures Get(r, k) != Undefined
    {
      if k != "id" && k != "date" {
        NormalizeFields(d, now, o);
        assert Get(r, k) == Get(m, k);
      }
    }
  }

  /**
   * A normalised descriptor is a fixed point: normalising it again, at any
   * clock reading, changes nothing.  So if one object sits in two slots of
   * a batch, the second turn changes nothing; `AddMulti` does not capture
   * that case, because its slots are values.
   */
  lemma {:induction false} NormalizeIdempotent(d: Props, now: int, later: int, o: Props)
    requires Normalize(d, now, o).Normal?
    ensures Normalize(d, later, Normalize(d, now, o).obj) == Normalize(d, now, o)
  {
    var m := Merge(d, o);
    var r := Normalize(d, now, o).obj;
    MergeValues(d, o);
    NormalizeFields(d, now, o);
    NormalizeId(d, now, o);
    NormalizeDate(d, now, o);
    forall k | k in d
      ensures k in r && (r[k] == Undefined ==> d[k] == Undefined)
    {
      if k != "id" && k != "date" && Get(o, k) == Undefined {
        assert r[k] == d[k];
      }
    }
    MergeStable(d, r);
    var id := Get(r, "id");
    if Truthy(id) {
      assert id.Str?;
      assert StringifyId(r) == r;
    }
  }

  // ---------------------------------------------------------------------- dispatch

  /** The platforms whose native side answers `add` with a command to evaluate. */
  const CallbackPlatforms := ["WinCE", "Win32NT"]

  /**
   * The test `['WinCE', 'Win32NT'].indexOf(platform)` of `add`, taken as a
   * boolean exactly as written: the index, not whether it was found.
   */
  predicate WantsCallbackAsWritten(platform: string) {
    Truthy(Num(IndexOf(CallbackPlatforms, platform)))
  }

  /**
   * As written, the test holds on every platform except `'WinCE'`: it passes
   * the callback on Android and iOS, and withholds it on WinCE.
   */
  lemma WantsCallbackAsWrittenUnlessWinCE(platform: string)
    ensures WantsCallbackAsWritten(platform) <==> platform != "WinCE"
  {
    var r := IndexOf(CallbackPlatforms, platform);
    if platform == "WinCE" {
      assert r == 0;
    }
  }

  /** The membership test `add` evidently means: the platform is one of the two Windows variants. */
  predicate WantsCallback(platform: string) {
    IndexOf(CallbackPlatforms, platform) != -1
  }

  /** The corrected test passes the callback exactly on `'WinCE'` and `'Win32NT'`. */
  lemma WantsCallbackOnWindows(platform: string)
    ensures WantsCallback(platform) <==> platform == "WinCE" || platform == "Win32NT"
  {
  }
}
