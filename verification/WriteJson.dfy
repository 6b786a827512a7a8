/** The write loop over records encoded as JSON: what one value without an encoding does to the others. */
module WriteJson {
  import opened Wrappers
  import opened Records
  import opened Utf8
  import opened JsonValues
  import opened Framing
  import opened WriteLoop

  type Values = RecordID -> Value

  function ValuesOf(rs: seq<RecordID>, value: Values): seq<Value> {
    seq(|rs|, i requires 0 <= i < |rs| => value(rs[i]))
  }

  predicate AllEncodable(rs: seq<RecordID>, value: Values) {
    forall i :: 0 <= i < |rs| ==> Encodable(value(rs[i]))
  }

  /** The fault an encoder reports for a request, which is one for all its records. */
  function EncodeFault(rs: seq<RecordID>, value: Values): Option<Class> {
    if AllEncodable(rs, value) then None else Some(PermanentMapping)
  }

  /** The body of a request, or the fault that stands for every record of it. */
  method BuildRequest(rs: seq<RecordID>, value: Values) returns (body: Bytes, fault: Option<Class>)
    ensures fault == EncodeFault(rs, value)
    ensures fault.None? ==> Lines(body, 0, 0) == EncodedAll(ValuesOf(rs, value))
  {
    var vs := ValuesOf(rs, value);
    var built := BuildBody(vs);
    assert AllEncodable(rs, value) <==> forall i :: 0 <= i < |vs| ==> Encodable(vs[i]) by {
      assert forall i :: 0 <= i < |vs| ==> vs[i] == value(rs[i]);
    }
    if built.None? {
      return [], Some(PermanentMapping);
    }
    BodySplits(vs);
    return built.value, None;
  }

  /** The encoder the loop consults is the one that builds requests. */
  ghost predicate EncodesJson(env: Env, value: Values) {
    forall n: nat, rs: seq<RecordID> :: env.encoder(n, rs) == EncodeFault(rs, value)
  }

  /**
   The sink is not called, and every record of the write is at fault, exactly when some value of it has no
   encoding.
   */
  method WriteValues(w: Writer, pending: seq<RecordID>, value: Values, env: Env) returns (ok: bool, faults: Faults)
    requires w.Valid() && Distinct(pending) && EncodesJson(env, value)
    modifies w
    ensures w.Valid()
    ensures pending != [] ==> (w.calls == old(w.calls) <==> exists r :: r in pending && !Encodable(value(r)))
    ensures (exists r :: r in pending && !Encodable(value(r))) ==>
              && ok && w.landed == old(w.landed)
              && forall r :: r in pending ==> r in faults && faults[r] == PermanentMapping
  {
    ghost var n := w.calls;
    assert (exists r :: r in pending && !Encodable(value(r))) <==> !AllEncodable(pending, value);
    assert env.encoder(n, pending) == EncodeFault(pending, value);
    ok, faults := w.WriteOnce(pending, env);
  }

  /** So a record that could have been written is at fault for its neighbour's value. */
  lemma NeighbourFaults(value: Values, a: RecordID, b: RecordID)
    requires Encodable(value(a)) && !Encodable(value(b))
    ensures EncodeFault([a], value) == None && EncodeFault([a, b], value) == Some(PermanentMapping)
  {
    assert !Encodable(value([a, b][1]));
  }
}
