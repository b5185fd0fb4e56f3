/** The guards of the team service: a team's player roster is a set of user
    ids with a duplicate guard and a presence guard, and its coach is
    assigned only to a user whose role is "coach". A refused call raises an
    error carrying an HTTP-like code and changes nothing. */
module TeamService {
  import opened Common

  /** The outcome of a guarded call: done, or refused with a code. */
  datatype Outcome = Done | Refused(code: int)

  /** A user as the service sees it: an id and the name of its role. */
  datatype UserRef = UserRef(id: int, role: string)

  const CoachRole := "coach"

  class Team {
    /** The ids of the users attached to the team. */
    var members: set<int>
    var coachId: Option<int>

    constructor(members: set<int>, coachId: Option<int>)
      ensures this.members == members && this.coachId == coachId
    {
      this.members := members;
      this.coachId := coachId;
    }

    /** `addPlayer`: 409 when the user is already attached, else attach. */
    method AddPlayer(user: UserRef) returns (r: Outcome)
      modifies this
      ensures user.id in old(members) ==> r == Refused(409) && members == old(members)
      ensures user.id !in old(members) ==> r == Done && members == old(members) + {user.id}
      ensures coachId == old(coachId)
    {
      if user.id in members {
        return Refused(409);
      }
      members := members + {user.id};
      r := Done;
    }

    /** `removePlayer`: 404 when the user is not attached, else detach. */
    method RemovePlayer(user: UserRef) returns (r: Outcome)
      modifies this
      ensures user.id !in old(members) ==> r == Refused(404) && members == old(members)
      ensures user.id in old(members) ==> r == Done && members == old(members) - {user.id}
      ensures coachId == old(coachId)
    {
      if user.id !in members {
        return Refused(404);
      }
      members := members - {user.id};
      r := Done;
    }

    /** `assignCoach`: 422 when the user's role is not "coach" (checked
        first), 409 when that user is already the coach, else assign. */
    method AssignCoach(coach: UserRef) returns (r: Outcome)
      modifies this
      ensures coach.role != CoachRole ==> r == Refused(422) && coachId == old(coachId)
      ensures coach.role == CoachRole && old(coachId) == Some(coach.id) ==> r == Refused(409) && coachId == old(coachId)
      ensures coach.role == CoachRole && old(coachId) != Some(coach.id) ==> r == Done && coachId == Some(coach.id)
      ensures members == old(members)
    {
      if coach.role != CoachRole {
        return Refused(422);
      }
      if coachId == Some(coach.id) {
        return Refused(409);
      }
      coachId := Some(coach.id);
      r := Done;
    }
  }

  /** Adding a player and then removing them gives back the roster they were
      added to, and both calls succeed. */
  method AddThenRemove(team: Team, user: UserRef) returns (added: Outcome, removed: Outcome)
    requires user.id !in team.members
    modifies team
    ensures added == Done && removed == Done
    ensures team.members == old(team.members) && team.coachId == old(team.coachId)
  {
    added := team.AddPlayer(user);
    removed := team.RemovePlayer(user);
  }

  /** A second assignment of the same coach is refused with 409 and keeps
      the assignment. */
  method AssignTwice(team: Team, coach: UserRef) returns (first: Outcome, second: Outcome)
    requires coach.role == CoachRole && team.coachId != Some(coach.id)
    modifies team
    ensures first == Done && second == Refused(409)
    ensures team.coachId == Some(coach.id)
  {
    first := team.AssignCoach(coach);
    second := team.AssignCoach(coach);
  }
}
