/**
 * `Tools.check_get`: fetch a setting (or one entry of a settings hash), check its type,
 * substitute a default, convert all-digit strings to integers, check integer bounds, and
 * abort with a localised message when the value is missing or of the wrong type.
 */
module CheckGet {
  import opened Strings
  import opened Values
  import opened Outcome

  /** The `type` argument: one of the four TYPE_* constants, or anything else. */
  datatype CheckType = CInteger | CString | CArray | CHash | COther(name: string)

  /** The local `msg_type`: empty, MSG_MISSING_VALUE, MSG_WRONG_VALUE or MSG_WRONG_TYPE. */
  datatype Verdict = NoMsg | MissingValue | WrongValue | WrongTypeMsg

  datatype Classified = Classified(value: Value, msg: Verdict)

  predicate OfType(v: Value, t: CheckType)
  {
    match t
      case CInteger => v.Int?
      case CString => v.Str?
      case CArray => v.Arr?
      case CHash => v.Hash?
      case COther(_) => false
  }

  predicate InRange(n: int, vmin: Option<int>, vmax: Option<int>)
  {
    (vmin.None? || n >= vmin.value) && (vmax.None? || n <= vmax.value)
  }

  predicate NonEmptyStrKey(key: Value)
  {
    key.Str? && key.s != ""
  }

  /** The first branch: no variable at all, or a hash whose keyed entry is missing or nil. */
  predicate Absent(v: Value, key: Value)
  {
    v.Nil? || (NonEmptyStrKey(key) && v.Hash? && (!HasKey(v.entries, key) || At(v.entries, key).Nil?))
  }

  /** The one path that writes `ctx[-1] = key`. */
  predicate WritesCtx(v: Value, t: CheckType, key: Value)
  {
    !Absent(v, key) && !t.COther? && NonEmptyStrKey(key) && v.Hash?
  }

  /** A value of the requested type: integers are bounds-checked, others may be refused as empty. */
  function OfItsType(x: Value, t: CheckType, empty: bool, vmin: Option<int>, vmax: Option<int>): Classified
    requires OfType(x, t)
  {
    if t.CInteger? then Classified(if InRange(x.i, vmin, vmax) then x else Nil, NoMsg)
    else if !empty && IsEmpty(x) then Classified(Nil, MissingValue)
    else Classified(x, NoMsg)
  }

  /** The checks once the value is known to be present and the type supported. */
  function Typed(v: Value, t: CheckType, key: Value, empty: bool, vmin: Option<int>, vmax: Option<int>): Result<Classified>
    requires !t.COther?
  {
    if key.Nil? then
      if !OfType(v, t) then
        if t.CInteger? && v.Str? then
          if !AllDigits(v.s) || !InRange(ToI(v.s), vmin, vmax) then Ok(Classified(Nil, WrongValue))
          else Ok(Classified(Int(ToI(v.s)), NoMsg))
        else Ok(Classified(Nil, WrongTypeMsg))
      else Ok(OfItsType(v, t, empty, vmin, vmax))
    else if NonEmptyStrKey(key) then
      if v.Hash? then
        if !HasKey(v.entries, key) then Ok(Classified(Nil, MissingValue))
        else
          var child := At(v.entries, key);
          if !OfType(child, t) then
            // The digit test of this branch is applied to the parent hash, which Ruby refuses.
            if t.CInteger? && child.Str? then Err(TypeErr("no implicit conversion of Hash into String"))
            else Ok(Classified(Nil, WrongTypeMsg))
          else Ok(OfItsType(child, t, empty, vmin, vmax))
      else Ok(Classified(Nil, WrongTypeMsg))
    else Ok(Classified(Nil, NoMsg))
  }

  /** `value` and `msg_type` at the end of the first part of `check_get`. */
  function Classify(v: Value, t: CheckType, ctxSize: nat, key: Value, default: Value, empty: bool,
                    vmin: Option<int>, vmax: Option<int>): Result<Classified>
  {
    if Absent(v, key) then
      Ok(if default.Nil? then Classified(Nil, MissingValue) else Classified(default, NoMsg))
    else if t.COther? then
      // The abort message splats `args`, which is only assigned further down, so Ruby raises NameError.
      Err(NameErr("args"))
    else if WritesCtx(v, t, key) && ctxSize == 0 then Err(IndexErr)
    else
      var c :- Typed(v, t, key, empty, vmin, vmax);
      Ok(if c.value.Nil? && c.msg.NoMsg? then Classified(Nil, WrongTypeMsg) else c)
  }

  /** A message exists only for a context of two to five entries; then the provisioner aborts. */
  function Report(c: Classified, ctxSize: nat): (r: Result<Value>)
    ensures r.Ok? ==> r.value == c.value
  {
    if 2 <= ctxSize <= 5 && c.msg == MissingValue then Err(MissingParam)
    else if 2 <= ctxSize <= 5 && c.msg == WrongTypeMsg then Err(WrongType)
    else Ok(c.value)
  }

  /** `Tools.check_get(var, type, ctx, key, default, empty, vmin, vmax)` with `ctx.size == ctxSize`. */
  function CheckGetOf(v: Value, t: CheckType, ctxSize: nat, key: Value, default: Value, empty: bool,
                      vmin: Option<int>, vmax: Option<int>): (r: Result<Value>)
    ensures r.Ok? ==> (r.value == Nil || r.value == default || r.value == v
      || (v.Hash? && r.value == At(v.entries, key))
      || (v.Str? && AllDigits(v.s) && r.value == Int(ToI(v.s))))
    ensures r.Err? && (r.error == MissingParam || r.error == WrongType) ==> 2 <= ctxSize <= 5
    ensures !Absent(v, key) && t.COther? ==> r == Err(NameErr("args"))
    ensures r == Err(NameErr("args")) ==> t.COther?
  {
    var c :- Classify(v, t, ctxSize, key, default, empty, vmin, vmax);
    Report(c, ctxSize)
  }

  /** A default stands in for a missing value unchecked: it is neither typed nor bounded. */
  lemma DefaultStandsIn(v: Value, t: CheckType, ctxSize: nat, key: Value, default: Value, empty: bool,
                        vmin: Option<int>, vmax: Option<int>)
    requires Absent(v, key)
    ensures default != Nil ==> CheckGetOf(v, t, ctxSize, key, default, empty, vmin, vmax) == Ok(default)
    ensures default == Nil ==> (CheckGetOf(v, t, ctxSize, key, default, empty, vmin, vmax)
      == if 2 <= ctxSize <= 5 then Err(MissingParam) else Ok(Nil))
  {
  }

  /** An integer that comes back (from the setting itself, not a default) lies within the bounds. */
  lemma IntegerWithinBounds(v: Value, ctxSize: nat, key: Value, default: Value, empty: bool,
                            vmin: Option<int>, vmax: Option<int>)
    requires !Absent(v, key)
    ensures var r := CheckGetOf(v, CInteger, ctxSize, key, default, empty, vmin, vmax);
      r.Ok? && r.value != Nil ==> r.value.Int? && InRange(r.value.i, vmin, vmax)
  {
  }

  /** An all-digit string within the bounds is converted to its integer. */
  lemma DigitStringConverted(s: string, ctxSize: nat, default: Value, empty: bool,
                             vmin: Option<int>, vmax: Option<int>)
    requires AllDigits(s) && InRange(DigitsValue(s), vmin, vmax)
    ensures CheckGetOf(Str(s), CInteger, ctxSize, Nil, default, empty, vmin, vmax) == Ok(Int(DigitsValue(s)))
  {
  }

  /**
   * A string that is not all digits, or is out of bounds, only sets MSG_WRONG_VALUE, which has
   * no message: nil comes back and the provisioner carries on.
   */
  lemma WrongValueNeverAborts(s: string, ctxSize: nat, default: Value, empty: bool,
                              vmin: Option<int>, vmax: Option<int>)
    requires !AllDigits(s) || !InRange(ToI(s), vmin, vmax)
    ensures CheckGetOf(Str(s), CInteger, ctxSize, Nil, default, empty, vmin, vmax) == Ok(Nil)
  {
  }

  /** An out-of-bounds Integer, by contrast, ends as MSG_WRONG_TYPE and aborts in a known context. */
  lemma IntegerOutOfBoundsAborts(n: int, ctxSize: nat, default: Value, empty: bool,
                                 vmin: Option<int>, vmax: Option<int>)
    requires !InRange(n, vmin, vmax)
    ensures CheckGetOf(Int(n), CInteger, ctxSize, Nil, default, empty, vmin, vmax)
      == if 2 <= ctxSize <= 5 then Err(WrongType) else Ok(Nil)
  {
  }

  /** With `empty` false, an empty string, array or hash is reported as missing. */
  lemma EmptyIsMissing(v: Value, t: CheckType, ctxSize: nat, default: Value, vmin: Option<int>, vmax: Option<int>)
    requires !v.Nil? && OfType(v, t) && !t.CInteger? && IsEmpty(v)
    ensures CheckGetOf(v, t, ctxSize, Nil, default, false, vmin, vmax)
      == if 2 <= ctxSize <= 5 then Err(MissingParam) else Ok(Nil)
    ensures CheckGetOf(v, t, ctxSize, Nil, default, true, vmin, vmax) == Ok(v)
  {
  }

  /** `Tools.check_get`, writing the key into the last slot of the context as the original does. */
  method CheckGetIn(v: Value, t: CheckType, ctx: array<Value>, key: Value, default: Value, empty: bool,
                    vmin: Option<int>, vmax: Option<int>) returns (r: Result<Value>)
    modifies ctx
    ensures r == CheckGetOf(v, t, ctx.Length, key, default, empty, vmin, vmax)
    ensures WritesCtx(v, t, key) && ctx.Length > 0 ==> ctx[..] == old(ctx[..])[ctx.Length - 1 := key]
    ensures !(WritesCtx(v, t, key) && ctx.Length > 0) ==> ctx[..] == old(ctx[..])
  {
    var n := ctx.Length;
    var value := Nil;
    var msgType := NoMsg;
    if Absent(v, key) {
      if default.Nil? {
        msgType := MissingValue;
      } else {
        value := default;
      }
    } else {
      if t.COther? {
        return Err(NameErr("args"));
      }
      if WritesCtx(v, t, key) {
        if n == 0 {
          return Err(IndexErr);
        }
        ctx[n - 1] := key;
      }
      var c := Typed(v, t, key, empty, vmin, vmax);
      if c.Err? {
        return Err(c.error);
      }
      value, msgType := c.value.value, c.value.msg;
      if value.Nil? && msgType.NoMsg? {
        msgType := WrongTypeMsg;
      }
    }
    assert Classify(v, t, n, key, default, empty, vmin, vmax) == Ok(Classified(value, msgType));
    r := Report(Classified(value, msgType), n);
  }
}
