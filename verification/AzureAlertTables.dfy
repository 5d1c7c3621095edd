/** The state tables that the Azure alert evaluators carry from one evaluation to the next. */
module AzureAlertTables {
  import opened Options

  class AzureAlertStore {
    var vmStates: map<string, int>
    var userStates: map<string, bool>

    method GetVmFirstSeenDeallocated(id: string) returns (firstSeen: Option<int>)
      ensures firstSeen == if id in vmStates then Some(vmStates[id]) else None
    {
      firstSeen := if id in vmStates then Some(vmStates[id]) else None;
    }

    /** An insert that leaves an existing row alone. */
    method SetVmFirstSeenDeallocated(id: string, now: int)
      modifies this`vmStates
      ensures vmStates == if id in old(vmStates) then old(vmStates) else old(vmStates)[id := now]
    {
      if id !in vmStates {
        vmStates := vmStates[id := now];
      }
    }

    method PurgeVmStates(active: set<string>)
      modifies this`vmStates
      ensures vmStates == map id | id in old(vmStates) && id in active :: old(vmStates)[id]
    {
      ghost var before := vmStates;
      var stale := vmStates.Keys - active;
      while stale != {}
        invariant stale <= before.Keys - active
        invariant vmStates == map id | id in before && (id in active || id in stale) :: before[id]
      {
        var id :| id in stale;
        vmStates := vmStates - {id};
        stale := stale - {id};
      }
    }

    method GetUserState(id: string) returns (enabled: Option<bool>)
      ensures enabled == if id in userStates then Some(userStates[id]) else None
    {
      enabled := if id in userStates then Some(userStates[id]) else None;
    }

    method UpsertUserState(id: string, enabled: bool)
      modifies this`userStates
      ensures userStates == old(userStates)[id := enabled]
    {
      userStates := userStates[id := enabled];
    }
  }
}
