/** Looking up the newest record of a task and key. */
module SchedulerLookup {
  import opened TaskTypes

  ghost predicate Later(triggers: map<Id, Trigger>, u: Id, t: Id)
    requires u in triggers && t in triggers
  {
    triggers[u].createdAt > triggers[t].createdAt || (triggers[u].createdAt == triggers[t].createdAt && u > t)
  }

  predicate Matches(r: Trigger, task: string, key: string) { r.task == task && r.key == key }

  /** The newest record of a task and key, if there is any. */
  ghost predicate IsLatest(triggers: map<Id, Trigger>, task: string, key: string, latest: Option<Id>) {
    match latest
    case None => forall t :: t in triggers ==> !Matches(triggers[t], task, key)
    case Some(u) => u in triggers && Matches(triggers[u], task, key)
                    && forall t :: t in triggers && Matches(triggers[t], task, key) && t != u ==> Later(triggers, u, t)
  }
}
