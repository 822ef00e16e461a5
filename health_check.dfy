/** HealthCheckUseCase (src/application/use_cases/health_check.py). */
module HealthCheckUseCase {
  import opened Exceptions
  import opened ModelRepository

  const Serving := "SERVING"
  const NotServing := "NOT_SERVING"

  /** The dictionary `execute` returns; its four keys are the four fields. The timestamp is the caller's clock reading. */
  datatype HealthReport = HealthReport(status: string, modelLoaded: bool, modelInfo: ModelInfo, timestamp: string)

  /** `execute`: health first, then the info, either of which may raise. */
  function Execute(repository: ModelPort, now: string): (r: Result<HealthReport>)
    ensures repository.isHealthy.Err? ==> r == Err(repository.isHealthy.error)
    ensures repository.isHealthy.Ok? && repository.modelInfo.Err? ==> r == Err(repository.modelInfo.error)
    ensures r.Ok? <==> repository.isHealthy.Ok? && repository.modelInfo.Ok?
    ensures r.Ok? ==> r.value.modelLoaded == repository.isHealthy.value
    ensures r.Ok? ==> (r.value.status == Serving <==> repository.isHealthy.value)
    ensures r.Ok? ==> (r.value.status == NotServing <==> !repository.isHealthy.value)
    ensures r.Ok? ==> r.value.modelInfo == repository.modelInfo.value && r.value.timestamp == now
  {
    var healthy :- repository.isHealthy;
    var info :- repository.modelInfo;
    Ok(HealthReport(if healthy then Serving else NotServing, healthy, info, now))
  }
}
