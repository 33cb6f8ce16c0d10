/** The toast queue of src/app/core/services/toast.service.ts. */
module Toasts {

  datatype ToastType = Success | Error | Info | Warning

  datatype Toast = Toast(id: string, kind: ToastType, message: string, duration: int)

  /** A toast a component asks for; the service gives it an id when shown. */
  datatype ToastRequest = ToastRequest(kind: ToastType, message: string)

  const DEFAULT_DURATION: int := 3000
  const ERROR_DURATION: int := 5000

  /** `ts.filter(t => t.id !== id)`. */
  function WithoutId(ts: seq<Toast>, id: string): (r: seq<Toast>)
    ensures forall t :: t in r <==> t in ts && t.id != id
    ensures |r| <= |ts|
  {
    if |ts| == 0 then []
    else WithoutId(ts[..|ts| - 1], id) + (if ts[|ts| - 1].id == id then [] else [ts[|ts| - 1]])
  }

  /** Removal works piecewise, so the survivors keep their relative order. */
  lemma {:induction false} WithoutIdConcat(a: seq<Toast>, b: seq<Toast>, id: string)
    ensures WithoutId(a + b, id) == WithoutId(a, id) + WithoutId(b, id)
  {
    if |b| > 0 {
      var b', last := b[..|b| - 1], b[|b| - 1];
      var tail := if last.id == id then [] else [last];
      WithoutIdConcat(a, b', id);
      assert (a + b)[..|a + b| - 1] == a + b';
      assert (a + b)[|a + b| - 1] == last;
      assert WithoutId(a + b, id) == WithoutId(a + b', id) + tail;
      assert WithoutId(b, id) == WithoutId(b', id) + tail;
    } else {
      assert a + b == a;
    }
  }

  /** Removing an id nobody has changes nothing. */
  lemma {:induction false} WithoutAbsentId(ts: seq<Toast>, id: string)
    requires forall t :: t in ts ==> t.id != id
    ensures WithoutId(ts, id) == ts
  {
    if |ts| > 0 {
      WithoutAbsentId(ts[..|ts| - 1], id);
      assert ts[..|ts| - 1] + [ts[|ts| - 1]] == ts;
    }
  }

  /** Showing a toast under a fresh id and then removing that id restores the list. */
  lemma ShowThenRemove(ts: seq<Toast>, t: Toast)
    requires forall u :: u in ts ==> u.id != t.id
    ensures WithoutId(ts + [t], t.id) == ts
  {
    WithoutIdConcat(ts, [t], t.id);
    WithoutAbsentId(ts, t.id);
  }

  class ToastService {
    var toasts: seq<Toast>

    constructor ()
      ensures toasts == []
    {
      toasts := [];
    }

    /**
     * `show`: appends one toast under the fresh id `id` (the source draws a
     * UUID). `autoRemove` says whether a removal of `id` is scheduled after
     * `duration` milliseconds.
     */
    method Show(kind: ToastType, message: string, duration: int, id: string) returns (autoRemove: bool)
      modifies this
      ensures toasts == old(toasts) + [Toast(id, kind, message, duration)]
      ensures autoRemove <==> duration > 0
    {
      toasts := toasts + [Toast(id, kind, message, duration)];
      autoRemove := duration > 0;
    }

    method ShowSuccess(message: string, id: string) returns (autoRemove: bool)
      modifies this
      ensures toasts == old(toasts) + [Toast(id, Success, message, DEFAULT_DURATION)]
      ensures autoRemove
    {
      autoRemove := Show(Success, message, DEFAULT_DURATION, id);
    }

    method ShowError(message: string, id: string) returns (autoRemove: bool)
      modifies this
      ensures toasts == old(toasts) + [Toast(id, Error, message, ERROR_DURATION)]
      ensures autoRemove
    {
      autoRemove := Show(Error, message, ERROR_DURATION, id);
    }

    method ShowInfo(message: string, id: string) returns (autoRemove: bool)
      modifies this
      ensures toasts == old(toasts) + [Toast(id, Info, message, DEFAULT_DURATION)]
      ensures autoRemove
    {
      autoRemove := Show(Info, message, DEFAULT_DURATION, id);
    }

    method Remove(id: string)
      modifies this
      ensures toasts == WithoutId(old(toasts), id)
    {
      toasts := WithoutId(toasts, id);
    }
  }
}
