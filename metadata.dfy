/** BaichuanUsage: the generic usage view over the token counts of a Baichuan
    completion. */
module Metadata {
  import opened Lang
  import Api

  /** The adapter; it holds the usage record it was built from. */
  datatype BaichuanUsage = BaichuanUsage(usage: Api.Usage)

  /** The constructor and from(): a null usage record is refused, any other
      one is stored as it is. */
  function From(usage: Option<Api.Usage>): (r: Result<BaichuanUsage, JavaError>)
    ensures r.Failure? <==> usage.None?
    ensures r.Failure? ==> r.error == IllegalArgument("Baichaun Usage must not be null")
    ensures r.Success? ==> r.value.usage == usage.value
  {
    if usage.None? then Failure(IllegalArgument("Baichaun Usage must not be null"))
    else Success(BaichuanUsage(usage.value))
  }

  /** The stored usage record. */
  function GetUsage(b: BaichuanUsage): (u: Api.Usage)
    ensures From(Some(u)) == Success(b)
  {
    b.usage
  }

  /** Widens a boxed count to a Long; a null count fails on unboxing. */
  function LongValue(x: Option<Int32>): (r: Result<Int64, JavaError>)
    ensures r.Failure? <==> x.None?
    ensures r.Failure? ==> r.error == NullPointer
    ensures r.Success? ==> r.value as int == x.value as int
  {
    if x.None? then Failure(NullPointer) else Success(Widen(x.value))
  }

  /** The prompt token count. */
  function GetPromptTokens(b: BaichuanUsage): (r: Result<Int64, JavaError>)
    ensures r.Failure? <==> b.usage.promptTokens.None?
    ensures r.Failure? ==> r.error == NullPointer
    ensures r.Success? ==> r.value as int == b.usage.promptTokens.value as int
  {
    LongValue(GetUsage(b).promptTokens)
  }

  /** The generation token count: the record's completion tokens. */
  function GetGenerationTokens(b: BaichuanUsage): (r: Result<Int64, JavaError>)
    ensures r.Failure? <==> b.usage.completionTokens.None?
    ensures r.Failure? ==> r.error == NullPointer
    ensures r.Success? ==> r.value as int == b.usage.completionTokens.value as int
  {
    LongValue(GetUsage(b).completionTokens)
  }

  /** The total token count. */
  function GetTotalTokens(b: BaichuanUsage): (r: Result<Int64, JavaError>)
    ensures r.Failure? <==> b.usage.totalTokens.None?
    ensures r.Failure? ==> r.error == NullPointer
    ensures r.Success? ==> r.value as int == b.usage.totalTokens.value as int
  {
    LongValue(GetUsage(b).totalTokens)
  }

  /** A usage record given to from() comes back unchanged, and the three
      getters report its prompt, completion and total counts. */
  lemma FromThenGet(u: Api.Usage)
    requires u.promptTokens.Some? && u.completionTokens.Some? && u.totalTokens.Some?
    ensures From(Some(u)).Success?
    ensures GetUsage(From(Some(u)).value) == u
    ensures GetPromptTokens(From(Some(u)).value) == Success(u.promptTokens.value as int as Int64)
    ensures GetGenerationTokens(From(Some(u)).value) == Success(u.completionTokens.value as int as Int64)
    ensures GetTotalTokens(From(Some(u)).value) == Success(u.totalTokens.value as int as Int64)
  {
  }

  /** The generation count is the completion count, not the total: with 3
      prompt, 7 completion and 10 total tokens it is 7. */
  lemma GenerationIsNotTotal()
    ensures var b := BaichuanUsage(Api.Usage(Some(3), Some(10), Some(7)));
            GetGenerationTokens(b) == Success(7) && GetTotalTokens(b) == Success(10)
            && GetPromptTokens(b) == Success(3)
  {
  }
}
