/** What the registry, the admission queue and the response share about one request
    (`RequestWork` in services/stt/src/openclaw_local_stt/request_lifecycle.py). */
module RequestWork {
  datatype WorkClass = Foreground | Background

  datatype Work = Work(id: string, deadline: int, cancelled: bool, workClass: WorkClass)
}
