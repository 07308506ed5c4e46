/**
 * The "WebCheckerPrefs" key-value store shared by the activity and the worker.
 *
 * Android keeps each preference together with the type it was written with;
 * a typed getter applied to a value of another type throws a
 * ClassCastException. Writes are treated as synchronous map updates.
 */
module Preferences {

  /** Kotlin `Int`. */
  newtype Int32 = x: int | -0x8000_0000 <= x < 0x8000_0000

  /** Kotlin `Long` (epoch milliseconds). */
  newtype Int64 = x: int | -0x8000_0000_0000_0000 <= x < 0x8000_0000_0000_0000

  const MaxInt32: Int32 := 0x7fff_ffff
  const MinInt32: Int32 := -0x8000_0000

  /** A stored preference, tagged with the putter that wrote it. */
  datatype Value = StrVal(s: string) | IntVal(i: Int32) | LongVal(l: Int64)

  type Store = map<string, Value>

  // The keys used by the application.
  const SemaforoKey: string := "semaforo"
  const UrlKey: string := "url"
  const WordKey: string := "word"
  const WordCountKey: string := "word_count"
  const LastFoundDateKey: string := "last_found_date"

  /** The five keys name five different entries. */
  lemma KeysDistinct()
    ensures SemaforoKey != UrlKey && SemaforoKey != WordKey && SemaforoKey != WordCountKey && SemaforoKey != LastFoundDateKey
    ensures UrlKey != WordKey && UrlKey != WordCountKey && UrlKey != LastFoundDateKey
    ensures WordKey != WordCountKey && WordKey != LastFoundDateKey
    ensures WordCountKey != LastFoundDateKey
  {
  }

  // The two values the activity writes under "semaforo".
  const Red: string := "R"
  const Green: string := "V"

  /**
   * The outcome of a typed getter: the value (or the caller's default),
   * `Absent` when the key is missing and the default is `null`, or
   * `ClassCast` when the key holds a value of another type.
   */
  datatype Read<T> = Got(v: T) | Absent | ClassCast

  /** `getString(key, null)`. */
  function GetString(store: Store, key: string): (r: Read<string>)
    ensures r.Absent? <==> key !in store
    ensures r.Got? <==> key in store && store[key].StrVal?
    ensures r.Got? ==> store[key] == StrVal(r.v)
  {
    if key !in store then Absent
    else match store[key]
      case StrVal(s) => Got(s)
      case _ => ClassCast
  }

  /** `getInt(key, default)`. */
  function GetInt(store: Store, key: string, default: Int32): (r: Read<Int32>)
    ensures !r.Absent?
    ensures key !in store ==> r == Got(default)
    ensures r.ClassCast? <==> key in store && !store[key].IntVal?
    ensures r.Got? && key in store ==> store[key] == IntVal(r.v)
  {
    if key !in store then Got(default)
    else match store[key]
      case IntVal(i) => Got(i)
      case _ => ClassCast
  }

  /** The application's preference file, an object both components hold. */
  class SharedPreferences {
    var entries: Store

    constructor (initial: Store)
      ensures entries == initial
    {
      entries := initial;
    }

    /** `edit().putString(key, value).apply()`. */
    method PutString(key: string, value: string)
      modifies this
      ensures entries == old(entries)[key := StrVal(value)]
    {
      entries := entries[key := StrVal(value)];
    }

    /** One `edit()` carrying several puts, made visible together by `apply()`. */
    method Apply(edit: Store)
      modifies this
      ensures entries == old(entries) + edit
    {
      entries := entries + edit;
    }
  }
}
