/** The command-line parameters and their validation (`dccs_parameters.h`, `parse_args`). */
module Params {

  datatype Verb = NoVerb | Send | Read | Write

  datatype Mode = Latency | Throughput

  const MAX_WR: nat := 1000
  const SIZE_MAX_PLUS_1: nat := 0x1_0000_0000_0000_0000

  /** The sizes as the options give them: each a `size_t`. */
  datatype Options = Options(verb: Verb, mode: Mode, count: nat, length: nat, repeat: nat,
                             warmup: nat, mrCount: nat)
  {
    ghost predicate Fits() {
      && count < SIZE_MAX_PLUS_1 && length < SIZE_MAX_PLUS_1 && repeat < SIZE_MAX_PLUS_1
      && warmup < SIZE_MAX_PLUS_1 && mrCount < SIZE_MAX_PLUS_1
    }
  }

  datatype Parsed = Accepted(params: Options) | Rejected(message: string)

  /** What the buffer code may rely on. */
  predicate Valid(p: Options) {
    p.count > 0 && p.length > 0 && p.mrCount > 0 && p.count % p.mrCount == 0 && p.repeat > 0
  }

  /** In throughput mode the warm-up requests are added to the count, with `size_t` wrap-around. */
  function WithWarmup(o: Options): Options {
    if o.mode == Throughput then o.(count := (o.count + o.warmup) % SIZE_MAX_PLUS_1) else o
  }

  /** The tail of `parse_args`: the arguments are checked in this order, after the warm-up
      requests are added. Nothing else decides, and nothing else is changed. */
  function Validate(o: Options): (r: Parsed)
    ensures r.Accepted? <==> Valid(WithWarmup(o))
    ensures r.Accepted? ==> r.params == WithWarmup(o) == o.(count := r.params.count)
  {
    var p := WithWarmup(o);
    if p.count == 0 then Rejected("count must be a positive integer.")
    else if p.length == 0 then Rejected("length must be a positive integer.")
    else if p.mrCount == 0 then Rejected("mr count must be a positive integer.")
    else if p.count % p.mrCount != 0 then Rejected("count must be a multiple of MR count.")
    else if p.repeat == 0 then Rejected("repeat must be a positive integer.")
    else Accepted(p)
  }

  /** What the user asked for is what is run, field by field, except that in throughput mode the
      warm-up requests are added to the count, modulo 2^64. */
  lemma AcceptedFields(o: Options)
    requires o.Fits() && Validate(o).Accepted?
    ensures var p := Validate(o).params;
            && p.verb == o.verb && p.mode == o.mode && p.length == o.length && p.repeat == o.repeat
            && p.warmup == o.warmup && p.mrCount == o.mrCount
            && (o.mode == Latency ==> p.count == o.count)
            && (o.mode == Throughput && o.count + o.warmup < 0x1_0000_0000_0000_0000 ==> p.count == o.count + o.warmup)
            && (o.mode == Throughput && o.count + o.warmup >= 0x1_0000_0000_0000_0000 ==>
                  p.count == o.count + o.warmup - 0x1_0000_0000_0000_0000)
  {}

  /** Exactly which options are accepted, and what a message says about the first argument at fault,
      in the order of the checks. */
  lemma AcceptedIff(o: Options)
    requires o.Fits()
    ensures var r := Validate(o);
            var sum := if o.mode == Throughput then o.count + o.warmup else o.count;
            var count := if sum < 0x1_0000_0000_0000_0000 then sum else sum - 0x1_0000_0000_0000_0000;
            && (r.Accepted? <==> count > 0 && o.length > 0 && o.mrCount > 0 && count % o.mrCount == 0 && o.repeat > 0)
            && (r == Rejected("count must be a positive integer.") <==> count == 0)
            && (r == Rejected("length must be a positive integer.") <==> count > 0 && o.length == 0)
            && (r == Rejected("mr count must be a positive integer.") <==> count > 0 && o.length > 0 && o.mrCount == 0)
            && (r == Rejected("count must be a multiple of MR count.") <==>
                  count > 0 && o.length > 0 && o.mrCount > 0 && count % o.mrCount != 0)
            && (r == Rejected("repeat must be a positive integer.") <==>
                  count > 0 && o.length > 0 && o.mrCount > 0 && count % o.mrCount == 0 && o.repeat == 0)
  {
    var a, b, c := "count must be a positive integer.", "length must be a positive integer.",
                   "mr count must be a positive integer.";
    var d, e := "count must be a multiple of MR count.", "repeat must be a positive integer.";
    assert a[0] == 'c' && b[0] == 'l' && c[0] == 'm' && d[0] == 'c' && e[0] == 'r' && |a| != |d|;
  }

  /** Accepted parameters are valid, and an equal record is accepted again when no warm-up is
      added: validation loses and invents nothing. */
  lemma AcceptedIsValid(o: Options)
    ensures Validate(o).Accepted? ==>
              var p := Validate(o).params;
              Valid(p) && p.count / p.mrCount >= 1 && p.count / p.mrCount * p.mrCount == p.count
    ensures o.mode == Latency ==> (Validate(o).Accepted? <==> Valid(o))
    ensures o.mode == Latency && Valid(o) ==> Validate(o) == Accepted(o)
  {}

  /** `print_throughput_report` reads `requests[warmup_count]`. That element exists exactly when
      the user asked for at least one measured request and the sum did not wrap. */
  lemma WarmupIndexExists(o: Options)
    requires o.Fits() && o.mode == Throughput && Validate(o).Accepted?
    ensures o.warmup < Validate(o).params.count <==> o.count > 0 && o.count + o.warmup < SIZE_MAX_PLUS_1
  {
    var sum := o.count + o.warmup;
    if sum >= SIZE_MAX_PLUS_1 {
      assert sum % SIZE_MAX_PLUS_1 == sum - SIZE_MAX_PLUS_1;
    }
  }

  /** The failing family is reachable: a count of zero with warm-up passes validation. */
  lemma WarmupOnlyIsAccepted()
    ensures var o := Options(Write, Throughput, 0, 2, 1, 5, 1);
            Validate(o).Accepted? && o.warmup >= Validate(o).params.count
  {}
}
