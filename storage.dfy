/**
 * The database tables the bot reads and writes, as abstract relations: the reports by id, the
 * (role, report) grants, and the projects whose to-pay tasks were moved to the finished status.
 * Rows that only come back from a query (allowed reports, roles, projects, report data) are not
 * stored here: the operations receive them as the query's answer.
 */
module Storage {
  import opened Wrappers

  /** A row of `bot_reports`: its name, SQL text, engine and file slug (the last two may be NULL). */
  datatype Report = Report(name: string, query: string, engine: Option<string>, slug: Option<string>)

  /** A row of `bot_roles_reports`; the report id is NULL when the session had no report. */
  datatype Grant = Grant(roleId: int, reportId: Option<int>)

  /** The reports after `report_query` of row `reportId` is set to `text`; a NULL or missing id changes nothing. */
  function WithQuery(reports: map<int, Report>, reportId: Option<int>, text: string): (r: map<int, Report>)
    ensures r.Keys == reports.Keys
    ensures forall id :: id in reports && Some(id) != reportId ==> r[id] == reports[id]
    ensures reportId.Some? && reportId.value in reports ==>
      r[reportId.value] == reports[reportId.value].(query := text)
  {
    if reportId.Some? && reportId.value in reports then reports[reportId.value := reports[reportId.value].(query := text)]
    else reports
  }

  class Tables {
    var reports: map<int, Report>
    var grants: set<Grant>
    /** The project ids the to-pay-to-finished status UPDATE ran for, in order. */
    var finishedProjects: seq<int>

    constructor (reports: map<int, Report>, grants: set<Grant>)
      ensures this.reports == reports && this.grants == grants && finishedProjects == []
    {
      this.reports := reports;
      this.grants := grants;
      finishedProjects := [];
    }

    /** `UPDATE bot_reports SET report_query = text WHERE id = report_id`: a NULL id matches no row. */
    method UpdateQuery(reportId: Option<int>, text: string)
      modifies this
      ensures reports == WithQuery(old(reports), reportId, text)
      ensures grants == old(grants) && finishedProjects == old(finishedProjects)
    {
      if reportId.Some? && reportId.value in reports {
        reports := reports[reportId.value := reports[reportId.value].(query := text)];
      }
    }

    /** `INSERT INTO bot_roles_reports (role_id, report_id)`. */
    method InsertGrant(roleId: int, reportId: Option<int>)
      modifies this
      ensures grants == old(grants) + {Grant(roleId, reportId)}
      ensures reports == old(reports) && finishedProjects == old(finishedProjects)
    {
      grants := grants + {Grant(roleId, reportId)};
    }

    /** `DELETE FROM bot_roles_reports WHERE role_id = .. AND report_id = ..`: NULL matches no row. */
    method DeleteGrant(roleId: int, reportId: Option<int>)
      modifies this
      ensures reportId.Some? ==> grants == old(grants) - {Grant(roleId, reportId)}
      ensures reportId.None? ==> grants == old(grants)
      ensures reports == old(reports) && finishedProjects == old(finishedProjects)
    {
      if reportId.Some? {
        grants := grants - {Grant(roleId, reportId)};
      }
    }

    /** The status UPDATE moving a project's to-pay tasks to its finished status. */
    method FinishProject(projectId: int)
      modifies this
      ensures finishedProjects == old(finishedProjects) + [projectId]
      ensures reports == old(reports) && grants == old(grants)
    {
      finishedProjects := finishedProjects + [projectId];
    }
  }
}
