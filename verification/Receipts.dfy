// Which stored receipts may be billed: each one for its own job, genuine, and counted once.
module Receipts {
  import opened Options

  // `proof` and `policy`: whether a verification and a policy decision are on record; `body` is what is not read here.
  datatype Payload = Payload(job: Option<string>, proof: bool, policy: bool, body: string)

  // `payload` is None when it is not a record or has nothing in it.
  datatype Receipt = Receipt(id: Option<string>, job: Option<string>, payload: Option<Payload>, signed: bool)

  // The signature check, when there is one.
  type Validator = Option<Payload -> bool>

  datatype Verdict = Fine | Malformed | JobMismatch | Duplicate | BadSignature

  function Judge(r: Receipt, seen: set<Option<string>>, v: Validator): Verdict {
    if r.payload.None? then Malformed
    else if r.payload.value.job.Some? && r.payload.value.job != r.job then JobMismatch
    else if r.id in seen then Duplicate
    else if v.Some? && (!r.signed || !v.value(r.payload.value)) then BadSignature
    else Fine
  }

  function IdsOf(rs: seq<Receipt>): set<Option<string>> { set i | 0 <= i < |rs| :: rs[i].id }

  // The receipts kept, by position.
  function Kept(rs: seq<Receipt>, v: Validator): (ks: seq<nat>)
    ensures forall i :: 0 <= i < |ks| ==> ks[i] < |rs|
  {
    if rs == [] then []
    else
      var front := rs[..|rs| - 1];
      var ks := Kept(front, v);
      if Judge(rs[|rs| - 1], IdsOf(Pick(front, ks)), v).Fine? then ks + [|rs| - 1] else ks
  }

  function Pick(rs: seq<Receipt>, ks: seq<nat>): seq<Receipt>
    requires forall i :: 0 <= i < |ks| ==> ks[i] < |rs|
  {
    seq(|ks|, i requires 0 <= i < |ks| => rs[ks[i]])
  }

  function Valid(rs: seq<Receipt>, v: Validator): seq<Receipt> { Pick(rs, Kept(rs, v)) }

  function Count(rs: seq<Receipt>, v: Validator, verdict: Verdict): nat {
    if rs == [] then 0
    else
      var front := rs[..|rs| - 1];
      Count(front, v, verdict) + if Judge(rs[|rs| - 1], IdsOf(Valid(front, v)), v) == verdict then 1 else 0
  }

  lemma OneMore(rs: seq<Receipt>, r: Receipt, v: Validator)
    ensures var verdict := Judge(r, IdsOf(Valid(rs, v)), v);
      && Valid(rs + [r], v) == (if verdict.Fine? then Valid(rs, v) + [r] else Valid(rs, v))
      && forall k :: Count(rs + [r], v, k) == Count(rs, v, k) + if verdict == k then 1 else 0
  {
    assert (rs + [r])[..|rs|] == rs;
  }

  lemma IdsOfOneMore(rs: seq<Receipt>, r: Receipt)
    ensures IdsOf(rs + [r]) == IdsOf(rs) + {r.id}
  {
    var more := rs + [r];
    assert forall i :: 0 <= i < |rs| ==> more[i] == rs[i];
    assert more[|rs|] == r;
  }

  // One receipt further, figure by figure.
  lemma UpTo(rs: seq<Receipt>, i: nat, v: Validator)
    requires i < |rs|
    ensures var before, after, verdict := rs[..i], rs[..i + 1], Judge(rs[i], IdsOf(Valid(rs[..i], v)), v);
      && Valid(after, v) == (if verdict.Fine? then Valid(before, v) + [rs[i]] else Valid(before, v))
      && IdsOf(Valid(after, v)) == (if verdict.Fine? then IdsOf(Valid(before, v)) + {rs[i].id} else IdsOf(Valid(before, v)))
      && Count(after, v, Malformed) == Count(before, v, Malformed) + (if verdict.Malformed? then 1 else 0)
      && Count(after, v, JobMismatch) == Count(before, v, JobMismatch) + (if verdict.JobMismatch? then 1 else 0)
      && Count(after, v, Duplicate) == Count(before, v, Duplicate) + (if verdict.Duplicate? then 1 else 0)
      && Count(after, v, BadSignature) == Count(before, v, BadSignature) + (if verdict.BadSignature? then 1 else 0)
  {
    hide Count, Valid, IdsOf, Judge;
    OneMore(rs[..i], rs[i], v);
    IdsOfOneMore(Valid(rs[..i], v), rs[i]);
    assert rs[..i + 1] == rs[..i] + [rs[i]];
  }

  method ValidateReceipts(receipts: seq<Receipt>, v: Validator)
    returns (valid: seq<Receipt>, malformed: nat, mismatched: nat, duplicates: nat, badSignatures: nat)
    ensures valid == Valid(receipts, v)
    ensures malformed == Count(receipts, v, Malformed) && mismatched == Count(receipts, v, JobMismatch)
    ensures duplicates == Count(receipts, v, Duplicate) && badSignatures == Count(receipts, v, BadSignature)
  {
    valid, malformed, mismatched, duplicates, badSignatures := [], 0, 0, 0, 0;
    var seen: set<Option<string>> := {};
    assert receipts[..0] == [] && IdsOf([]) == {} && Valid([], v) == [] && forall k :: Count([], v, k) == 0;
    hide *;
    for i := 0 to |receipts|
      invariant valid == Valid(receipts[..i], v) && seen == IdsOf(Valid(receipts[..i], v))
      invariant malformed == Count(receipts[..i], v, Malformed)
      invariant mismatched == Count(receipts[..i], v, JobMismatch)
      invariant duplicates == Count(receipts[..i], v, Duplicate)
      invariant badSignatures == Count(receipts[..i], v, BadSignature)
    {
      var receipt := receipts[i];
      UpTo(receipts, i, v);
      match Judge(receipt, seen, v) {
        case Malformed => malformed := malformed + 1;
        case JobMismatch => mismatched := mismatched + 1;
        case Duplicate => duplicates := duplicates + 1;
        case BadSignature => badSignatures := badSignatures + 1;
        case Fine =>
          seen := seen + {receipt.id};
          valid := valid + [receipt];
      }
    }
    assert receipts[..|receipts|] == receipts;
  }

  // ------------------------------------------------------------------ what is kept

  // Every receipt is either kept or counted as set aside for one reason.
  lemma {:induction false} EveryReceiptIsCounted(rs: seq<Receipt>, v: Validator)
    ensures |rs| == |Valid(rs, v)| + Count(rs, v, Malformed) + Count(rs, v, JobMismatch) + Count(rs, v, Duplicate)
                    + Count(rs, v, BadSignature)
  {
    if rs != [] {
      hide Count, Valid, Judge, IdsOf;
      EveryReceiptIsCounted(rs[..|rs| - 1], v);
      UpTo(rs, |rs| - 1, v);
      assert rs[..|rs|] == rs;
    }
  }

  // What a receipt says about itself, whatever came before it.
  predicate Good(r: Receipt, v: Validator) { Judge(r, {}, v).Fine? }

  predicate AnyGood(rs: seq<Receipt>, v: Validator, id: Option<string>) {
    exists j :: 0 <= j < |rs| && Good(rs[j], v) && rs[j].id == id
  }

  lemma AnyGoodOneMore(rs: seq<Receipt>, r: Receipt, v: Validator, id: Option<string>)
    ensures AnyGood(rs + [r], v, id) <==> AnyGood(rs, v, id) || (Good(r, v) && r.id == id)
  {
    hide Good;
    var more := rs + [r];
    assert more[|rs|] == r;
    if AnyGood(rs, v, id) {
      var j :| 0 <= j < |rs| && Good(rs[j], v) && rs[j].id == id;
      assert more[j] == rs[j];
    }
  }

  lemma JudgedOnItself(r: Receipt, seen: set<Option<string>>, v: Validator)
    ensures Judge(r, seen, v).Fine? <==> Good(r, v) && r.id !in seen
  {
  }

  // An id is taken exactly by a good receipt.
  lemma {:induction false} SeenAreGood(rs: seq<Receipt>, v: Validator, id: Option<string>)
    ensures id in IdsOf(Valid(rs, v)) <==> AnyGood(rs, v, id)
  {
    if rs != [] {
      var front, r := rs[..|rs| - 1], rs[|rs| - 1];
      assert rs == front + [r];
      SeenAreGood(front, v, id);
      SeenAreGood(front, v, r.id);
      OneMore(front, r, v);
      AnyGoodOneMore(front, r, v, id);
      JudgedOnItself(r, IdsOf(Valid(front, v)), v);
      IdsOfOneMore(Valid(front, v), r);
      hide *;
      assert Judge(r, IdsOf(Valid(front, v)), v).Fine? ==> Valid(rs, v) == Valid(front, v) + [r];
    }
  }

  // Kept are exactly the first good receipts of their ids, in the order they came; a bad copy blocks nothing.
  lemma {:induction false} KeptAreFirstGood(rs: seq<Receipt>, v: Validator)
    ensures forall i: nat :: i < |rs| ==> (i in Kept(rs, v) <==> Good(rs[i], v) && !AnyGood(rs[..i], v, rs[i].id))
    ensures forall a, b :: 0 <= a < b < |Kept(rs, v)| ==> Kept(rs, v)[a] < Kept(rs, v)[b]
  {
    if rs != [] {
      var front, r := rs[..|rs| - 1], rs[|rs| - 1];
      KeptAreFirstGood(front, v);
      SeenAreGood(front, v, r.id);
      JudgedOnItself(r, IdsOf(Valid(front, v)), v);
      assert forall i :: 0 <= i < |front| ==> front[..i] == rs[..i] && front[i] == rs[i];
      hide Judge, Good, AnyGood, IdsOf, Pick;
    }
  }

  predicate DistinctIds(rs: seq<Receipt>) { forall i, j :: 0 <= i < j < |rs| ==> rs[i].id != rs[j].id }

  // No id is billed twice.
  lemma ValidIdsDiffer(rs: seq<Receipt>, v: Validator)
    ensures DistinctIds(Valid(rs, v)) && forall i :: 0 <= i < |Valid(rs, v)| ==> Good(Valid(rs, v)[i], v)
  {
    KeptAreFirstGood(rs, v);
    var ks := Kept(rs, v);
    hide Good, Kept;
    forall i | 0 <= i < |ks| ensures Good(rs[ks[i]], v) { assert ks[i] in ks; }
    forall i, j | 0 <= i < j < |ks| ensures rs[ks[i]].id != rs[ks[j]].id {
      assert ks[i] in ks && ks[j] in ks;
      assert rs[..ks[j]][ks[i]] == rs[ks[i]];
    }
  }

  // Filtering what was kept sets nothing aside.
  lemma FilteringTwice(rs: seq<Receipt>, v: Validator)
    ensures Valid(Valid(rs, v), v) == Valid(rs, v)
    ensures forall k :: k != Fine ==> Count(Valid(rs, v), v, k) == 0
  {
    ValidIdsDiffer(rs, v);
    AllGoodAllKept(Valid(rs, v), v);
  }

  lemma {:induction false} AllGoodAllKept(rs: seq<Receipt>, v: Validator)
    requires DistinctIds(rs) && forall i :: 0 <= i < |rs| ==> Good(rs[i], v)
    ensures Valid(rs, v) == rs
    ensures forall k :: k != Fine ==> Count(rs, v, k) == 0
  {
    if rs != [] {
      var front, r := rs[..|rs| - 1], rs[|rs| - 1];
      assert r.id !in IdsOf(front) && Good(r, v) && DistinctIds(front);
      JudgedOnItself(r, IdsOf(front), v);
      hide Count, Valid, Good, IdsOf, Judge, DistinctIds;
      AllGoodAllKept(front, v);
      OneMore(front, r, v);
      assert rs == front + [r];
    }
  }
}
