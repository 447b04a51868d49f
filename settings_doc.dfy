/** The settings document (`settings.json`) shared by both front ends: the team's annual
    hours goal, its revenue goal, the staff shown on the dashboard and each staff member's
    weekly hours goal. (`treshold` is the document's own spelling.) */
module SettingsDoc {

  datatype Thresholds = Thresholds(
    tresholdHours: int,
    tresholdRevenue: int,
    customStaffList: seq<string>,
    staffWeeklyGoals: map<string, int>)
}
