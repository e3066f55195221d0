# Kalam NanoAtmosphere: a Dafny model of the dashboard's core logic

Kalam NanoAtmosphere is a Streamlit dashboard. Its pages mix UI code with small
pieces of sequential logic. This project models that logic in Dafny and proves
what the pages promise about it.

- **Authentication.** The model covers:
  - the credential store (`register_user`, `verify_password`), with email normalisation;
  - the six-digit OTP formatter;
  - the two-stage login page (credentials, then a one-time passcode), with expiry, Back, Resend and the admin-role rule;
  - the Logout button;
  - the confirm-password check of the Register page.
- **Community reporting and the activity log:**
  - the score dictionary and the report list of the Community Hub: point awards, the bounding-box auto-validator, moderation and the badge leaderboard;
  - the Admin Panel's access guard, metrics, last-20 table and Clear Logs.
- **Classification rules:**
  - the AQI banding of the Pollution Alerts page and its 30-second re-pull rule;
  - the gas-fingerprint notes of `interpret_city`;
  - vehicle counting, congestion bands and video sampling on the Traffic Intelligence page, plus its industry-zone label;
  - the Breathability Index, shared by the Predictive Microclouds, What-If Simulator and National Reports pages.

One module per source file:

| module | file | what it holds |
|---|---|---|
| `Common` | `common.dfy` | `Option` and the admin address |
| `Text` | `text.dfy` | ASCII `strip` and `lower` |
| `OtpCode` | `otp.dfy` | the OTP formatter |
| `AuthStore` | `auth_store.dfy` | the credential store |
| `Login` | `login.dfy` | the login page and logout |
| `RegisterPage` | `register_page.dfy` | the Register page |
| `CommunityHub` | `community_hub.dfy` | reports, scores, moderation, leaderboard |
| `AdminPanel` | `admin_panel.dfy` | the admin panel |
| `PollutionAlerts` | `pollution_alerts.dfy` | AQI banding and re-pull |
| `CityProfiles` | `city_profiles.dfy` | gas-fingerprint notes |
| `Traffic` | `traffic.dfy` | counting, congestion, video sampling, industry label |
| `BreathIndex` | `breathability.dfy` | the shared Breathability Index |
| `WhatIf` | `whatif_simulator.dfy` | the policy simulation |
| `Microclouds` | `predictive_microclouds.dfy` | micro-zone risk |
| `NationalReports` | `national_reports.dfy` | the city snapshot table |

How the model is built:

- **State.** What the source updates in place is a class, with each method proved against a pure function:
  - the login session: `Login.LoginPage` against the `Press*` transitions;
  - the credential map: `AuthStore.UserStore`;
  - the score dictionary and report list: `CommunityHub.Hub`;
  - the activity log: `AdminPanel.ActivityLog`;
  - the alert reading: `PollutionAlerts.AlertState`;
  - the live video processor: `Traffic.VideoProcessor`.
- **Inputs from outside.** The clock, the random OTP draw, the bcrypt salt, the report id and the detector's output are parameters.
- **bcrypt.** Its key derivation is an uninterpreted function value, `Kdf`, held by the store. `checkpw` re-hashes with the salt stored in the hash, so `check(p, hash(p, s))` is a lemma (`AuthStore.CheckHashed`), not an assumption.
- **Numbers.** They are modelled as `real`.
  - Python's `int()` truncation is written out in `Login.Trunc`.
  - Integers are unbounded, as in Python.

## Model

| member | source | states |
|---|---|---|
| Text.Lower | nanoatmosphere/src/auth_store.py:17 | `lower()` keeps the length and lower-cases each ASCII letter in place |
| Text.StripLeftShape | nanoatmosphere/src/auth_store.py:17 | `lstrip` removes exactly the leading white space: what it keeps is a suffix that does not start with white space, and everything dropped is white space |
| Text.StripRightShape | nanoatmosphere/src/auth_store.py:17 | `rstrip` removes exactly the trailing white space, symmetrically |
| Text.StripTrimmed | nanoatmosphere/src/auth_store.py:17 | the result of `strip()` has no white space at either end |
| Text.StripOfTrimmed | nanoatmosphere/src/auth_store.py:17 | a string with no white space at either end is its own strip |
| Text.StripLowerCommute | nanoatmosphere/src/auth_store.py:17 | `strip` and `lower` commute |
| Text.NormalizeIdempotent | nanoatmosphere/src/auth_store.py:17 | normalising an already-normalised email changes nothing (the login page stores the normalised email and the store normalises it again) |
| Text.NormalizeIgnoresCase | nanoatmosphere/src/auth_store.py:33 | any case variant of an email has the same key |
| Text.NormalizeIgnoresPadding | nanoatmosphere/src/auth_store.py:33 | white space around an email does not change its key |
| Text.StripIgnoresPadding | nanoatmosphere/src/auth_store.py:17 | `strip` of padded text equals `strip` of the text |
| OtpCode.DecimalValue | nanoatmosphere/auth_email.py:11 | a string of n digits spells a number below 10^n |
| OtpCode.PadDecimal | nanoatmosphere/auth_email.py:11 | `{:0nd}` formatting yields exactly n decimal digits |
| OtpCode.DecimalOfPad | nanoatmosphere/auth_email.py:11 | reading a zero-padded number back gives the number |
| OtpCode.PadOfDecimal | nanoatmosphere/auth_email.py:11 | padding the value of a digit string gives the string back |
| OtpCode.GenerateOtp | nanoatmosphere/auth_email.py:10-11 | the code is six decimal digits whose value is the draw |
| OtpCode.GenerateOtpInjective | nanoatmosphere/auth_email.py:10-11 | two draws give the same code if and only if they are equal |
| OtpCode.GenerateOtpOnto | nanoatmosphere/auth_email.py:10-11 | every six-digit string is the code of a draw in 0..999999 |
| AuthStore.CheckHashed | nanoatmosphere/src/auth_store.py:38 | `checkpw(p, hashpw(p, salt))` holds |
| AuthStore.Register | nanoatmosphere/src/auth_store.py:16-30 | Checks, in order: (1) an empty or `@`-less normalised email is rejected; (2) a password shorter than 6 is rejected; (3) an existing key is rejected. Each rejection keeps the map. A success adds exactly the new key with `{hash, created_at}` and keeps every other entry. |
| AuthStore.VerifyPassword | nanoatmosphere/src/auth_store.py:32-38 | an email whose normalised key is unknown never verifies; for a known key the result is exactly `checkpw` of the password against the stored hash |
| AuthStore.RegisterThenVerify | nanoatmosphere/src/auth_store.py:16-38 | after a successful registration, the same password verifies under any email that normalises to the same key |
| AuthStore.RegisterKeepsOtherLogins | nanoatmosphere/src/auth_store.py:24-28 | registering one key does not change whether any other key verifies |
| AuthStore.ReRegisterRejected | nanoatmosphere/src/auth_store.py:23-25 | registering an existing key again, with any valid password, returns "User already exists" and keeps the first record |
| AuthStore.UserStore.constructor | nanoatmosphere/src/auth_store.py:7-11 | the store holds the map it was loaded with |
| AuthStore.UserStore.RegisterUser | nanoatmosphere/src/auth_store.py:16-30 | the new map is `Register`'s; the flag is true exactly on success, and the message is the source's text for the outcome |
| AuthStore.UserStore.Verify | nanoatmosphere/src/auth_store.py:32-38 | the result is `verify_password` on the current map, so a verified email is a stored key |
| RegisterPage.CreateAccount | nanoatmosphere/pages/Register.py:44-53 | mismatched passwords show "Passwords do not match." and leave the store unchanged; otherwise the store is `register_user`'s result and the message is shown as success or error |
| Login.ExpiredIff | nanoatmosphere/pages/Login.py:89-91 | because `int()` truncates, the code expires exactly when more than 299 seconds have passed |
| Login.InitialInv | nanoatmosphere/pages/Login.py:39-53 | the fresh session satisfies the session invariant |
| Login.PressNext | nanoatmosphere/pages/Login.py:73-85 | Preserves the invariant. Bad credentials (unknown user or wrong password alike) give the single error and change nothing. Good credentials set the code, `otp_ts = now` and the normalised `pending_email`, and enter the OTP stage. The code is then mailed to that address. |
| Login.PressBack | nanoatmosphere/pages/Login.py:89-99 | Back acts only on an expired code; it returns to credentials and clears all three OTP fields; otherwise nothing changes |
| Login.RoleFor | nanoatmosphere/pages/Login.py:111-115 | admin exactly for the fixed address |
| Login.PressVerify | nanoatmosphere/pages/Login.py:88-126 | Preserves the invariant. An expired code is refused first. A wrong code changes nothing. The stripped correct code logs in `pending_email` with its role, returns to credentials and clears the OTP fields. |
| Login.PressResend | nanoatmosphere/pages/Login.py:128-135 | a new code and issue time for the same pending email and stage, mailed to it; on an expired code it does nothing |
| Login.PressLogout | nanoatmosphere/app.py:82-84 | logout returns a logged-in session to the initial session |
| Login.LoggedInIsFinal | nanoatmosphere/pages/Login.py:61-63 | once logged in, no login-page button changes the session |
| Login.StripOtp | nanoatmosphere/pages/Login.py:107 | a six-digit code is its own strip |
| Login.ResendInvalidatesOldCode | nanoatmosphere/pages/Login.py:129-133 | after a resend, the previous code is answered "Wrong OTP" unless the new draw produced the same code |
| Login.LoginWithValidPassword | nanoatmosphere/pages/Login.py:73-121 | valid credentials, then the mailed code typed within 299 s, log the normalised email in with the role for it |
| Login.RegisterAndLogin | nanoatmosphere/pages/Login.py:73-121 | registering and then logging in with any spelling of the email, the mailed code and a reply within 299 s ends logged in as the normalised email |
| Login.LoginPage.constructor | nanoatmosphere/pages/Login.py:39-53 | the session-init values, and the invariant holds |
| Login.LoginPage.Next | nanoatmosphere/pages/Login.py:73-85 | the fields and outcome are those of `PressNext`; the invariant is kept |
| Login.LoginPage.Back | nanoatmosphere/pages/Login.py:91-99 | the fields and outcome are those of `PressBack`; the invariant is kept |
| Login.LoginPage.Verify | nanoatmosphere/pages/Login.py:101-126 | the fields and outcome are those of `PressVerify`; the invariant is kept |
| Login.LoginPage.Resend | nanoatmosphere/pages/Login.py:128-135 | the fields and outcome are those of `PressResend`; the invariant is kept |
| Login.LoginPage.Logout | nanoatmosphere/app.py:82-84 | the fields and outcome are those of `PressLogout`; the invariant is kept |
| CommunityHub.AutoValidate | nanoatmosphere/pages/9_Community_Hub.py:67-82 | true exactly when both coordinates are numbers with 28.4 ≤ lat ≤ 28.8 and 76.9 ≤ lon ≤ 77.4; a missing coordinate (read as 0) or an unparsable one gives false |
| CommunityHub.PublicName | nanoatmosphere/pages/9_Community_Hub.py:168 | the email when the box is checked, otherwise "Anonymous" |
| CommunityHub.Submitted | nanoatmosphere/pages/9_Community_Hub.py:165-189 | the stored report is "Action Taken" and auto-verified exactly when the coordinates are in the box, and "Under Review" otherwise; every other field (id, user, public name, category, severity, city, coordinates, description, timestamp, photo flag) is the submitted one |
| CommunityHub.Award | nanoatmosphere/pages/9_Community_Hub.py:184-190 | severity 1..5 earns 6..20 points; auto-verification adds exactly 10 |
| CommunityHub.FirstIndex | nanoatmosphere/pages/9_Community_Hub.py:306-308 | the first report with the id, or none when no report has it |
| CommunityHub.SetStatus | nanoatmosphere/pages/9_Community_Hub.py:332-350 | moderation keeps the length and every field except one report's status; only the first report with the id gets the new status |
| CommunityHub.BadgeFor | nanoatmosphere/pages/9_Community_Hub.py:379-386 | each tier exactly on its range: Legend from 100, Pro in [50,100), Trusted in [20,50), New below 20 |
| CommunityHub.BadgeMonotone | nanoatmosphere/pages/9_Community_Hub.py:379-386 | more points never earn a lower badge |
| CommunityHub.Insert | nanoatmosphere/pages/9_Community_Hub.py:371-375 | inserting into a ranking keeps it sorted by non-increasing points and adds exactly the new entry |
| CommunityHub.SortByPoints | nanoatmosphere/pages/9_Community_Hub.py:371-375 | the sort's result is sorted by non-increasing points and is a permutation of the items |
| CommunityHub.ItemsOf | nanoatmosphere/pages/9_Community_Hub.py:372 | `items()` lists each user in insertion order with its points |
| CommunityHub.Hub.constructor | nanoatmosphere/pages/9_Community_Hub.py:43-47 | the hub holds the loaded reports and scores |
| CommunityHub.Hub.AddPoints | nanoatmosphere/pages/9_Community_Hub.py:61-65 | the user's score becomes the old score (0 if absent) plus the points, and no other score changes; a new user is added at the end of the dictionary order |
| CommunityHub.Hub.Submit | nanoatmosphere/pages/9_Community_Hub.py:159-192 | exactly one report is appended, as `Submitted` describes, and earlier reports are unchanged; the submitter gains `Award(severity, auto_verified)`, and no other score changes |
| CommunityHub.Hub.Reward | nanoatmosphere/pages/9_Community_Hub.py:183-190 | the base award and the optional bonus add up to `Award`, and nothing else changes |
| CommunityHub.AwardedInTwoSteps | nanoatmosphere/pages/9_Community_Hub.py:184-190 | two successive `add_points` calls of 5+severity and 10 equal one award of `Award(severity, true)` |
| CommunityHub.Hub.Moderate | nanoatmosphere/pages/9_Community_Hub.py:292-350 | only the admin changes anything; the report list becomes `SetStatus` of it; scores are untouched |
| CommunityHub.FirstIndexAt | nanoatmosphere/pages/9_Community_Hub.py:347-350 | the write-back loop stops at the report `next(...)` found |
| CommunityHub.Hub.Leaderboard | nanoatmosphere/pages/9_Community_Hub.py:365-395 | one row per user, ranks 1..n, points non-increasing, each badge matches its points, and the (user, points) pairs are a permutation of the score dictionary |
| CommunityHub.RankedTable | nanoatmosphere/pages/9_Community_Hub.py:377-395 | a table built from a sorted ranking is ranked, badged, sorted and lists exactly the ranking |
| AdminPanel.Get | nanoatmosphere/pages/6_Admin_Panel.py:52-55 | `dict.get` returns the value when present and the default otherwise |
| AdminPanel.Guard | nanoatmosphere/pages/6_Admin_Panel.py:9-15 | access is granted exactly to a logged-in session whose email is the admin address; logged-out sessions get the login error |
| AdminPanel.GuardMatchesRole | nanoatmosphere/pages/6_Admin_Panel.py:9-15 | in every session the login page can reach, the panel opens exactly for the admin role |
| AdminPanel.UserSet | nanoatmosphere/pages/6_Admin_Panel.py:31 | the set holds exactly the users of the entries, with a missing user read as "unknown" |
| AdminPanel.UniqueUsersBound | nanoatmosphere/pages/6_Admin_Panel.py:30-31 | there are never more unique users than log entries, and there are none only when the log is empty |
| AdminPanel.LastActivity | nanoatmosphere/pages/6_Admin_Panel.py:36-41 | "No logs" for an empty log; otherwise the last entry's timestamp, or "N/A" |
| AdminPanel.LastActivityOfAppend | nanoatmosphere/pages/6_Admin_Panel.py:30-41 | after a page visit appends an entry, Last Activity shows that entry's timestamp (or "N/A") and there is at least one unique user |
| AdminPanel.SafeOf | nanoatmosphere/pages/6_Admin_Panel.py:51-56 | each field is copied when present, else "unknown" ("N/A" for the timestamp) |
| AdminPanel.SafeLogs | nanoatmosphere/pages/6_Admin_Panel.py:47-56 | at most 20 rows, the last 20 entries in their order, each made safe |
| AdminPanel.ActivityLog.constructor | nanoatmosphere/pages/6_Admin_Panel.py:22-24 | a session without a log starts with an empty one |
| AdminPanel.ActivityLog.Clear | nanoatmosphere/pages/6_Admin_Panel.py:73-74 | the log is empty, so the metrics read 0 unique users and "No logs" |
| PollutionAlerts.Classify | nanoatmosphere/pages/8_Pollution_Alerts.py:39-59 | the reading exceeds every upper bound below its band and does not exceed its own (inclusive bounds 50, 100, 200, 300, 400) |
| PollutionAlerts.ClassifyMonotone | nanoatmosphere/pages/8_Pollution_Alerts.py:43-59 | a higher AQI never gives a less severe band |
| PollutionAlerts.ClassifyAqi | nanoatmosphere/pages/8_Pollution_Alerts.py:39-59 | label, colour and advisory all belong to the one band of the reading |
| PollutionAlerts.CardDistinguishesBands | nanoatmosphere/pages/8_Pollution_Alerts.py:43-59 | different bands have different labels and colours |
| PollutionAlerts.LabelFixesCard | nanoatmosphere/pages/8_Pollution_Alerts.py:43-59 | two readings with the same label get the same colour and advisory |
| PollutionAlerts.AlertState.constructor | nanoatmosphere/pages/8_Pollution_Alerts.py:129-130 | `last_alert_pull` starts at 0 with no reading |
| PollutionAlerts.AlertState.Refresh | nanoatmosphere/pages/8_Pollution_Alerts.py:132-138 | A pull happens exactly on Refresh or after more than 30 s. A pull updates both the reading and the pull time. Otherwise both are kept, and the card shows the stored reading. |
| CityProfiles.InterpretCity | nanoatmosphere/src/data_engine/city_profiles.py:36-71 | Each rule's note appears exactly when the rule holds. The balanced note appears exactly when no rule fires, and then alone. There are 1 or 2 notes, in rule order, with no repeats. |
| CityProfiles.TrafficExcludesIndustrial | nanoatmosphere/src/data_engine/city_profiles.py:49-58 | the traffic and industrial notes never appear together |
| Traffic.CountDetections | nanoatmosphere/pages/10_Traffic_intelligence.py:70-79 | the total counts the boxes with a vehicle class; the breakdown has exactly the five names, each counting its class's boxes |
| Traffic.CountBoxes | nanoatmosphere/pages/10_Traffic_intelligence.py:75-79 | adding one result's boxes extends both counts to the boxes seen so far |
| Traffic.TotalIsSumOfBreakdown | nanoatmosphere/pages/10_Traffic_intelligence.py:77-79 | the total equals the sum of the breakdown over the five names |
| Traffic.BreakdownRows | nanoatmosphere/pages/10_Traffic_intelligence.py:175-179 | the table lists exactly the names with a positive count, each with its count |
| Traffic.BreakdownRowsOrdered | nanoatmosphere/pages/10_Traffic_intelligence.py:176-178 | over distinct keys the rows follow the dictionary order, so no name has two rows |
| Traffic.VehicleNamesDistinct | nanoatmosphere/pages/10_Traffic_intelligence.py:33-36 | the five vehicle names are distinct, so the breakdown table has one row per name |
| Traffic.CongestionFor | nanoatmosphere/pages/10_Traffic_intelligence.py:85-90 | Light exactly below density 5, Heavy exactly from 15 |
| Traffic.Density | nanoatmosphere/pages/10_Traffic_intelligence.py:82-83 | density is non-negative and zero exactly when no vehicle was counted |
| Traffic.CongestionMonotone | nanoatmosphere/pages/10_Traffic_intelligence.py:82-90 | on a frame of fixed size, more vehicles never give lighter congestion |
| Traffic.AnalyzeFrame | nanoatmosphere/pages/10_Traffic_intelligence.py:143-168 | the image branch: total and breakdown as counted, density of the total, congestion band of the density |
| Traffic.VideoProcessor.constructor | nanoatmosphere/pages/10_Traffic_intelligence.py:56-61 | confidence 0.25, no vehicles, Light, all five names at 0 |
| Traffic.VideoProcessor.Recv | nanoatmosphere/pages/10_Traffic_intelligence.py:63-96 | count, density, congestion and breakdown are all updated from the same frame; the count is the sum of the breakdown |
| Traffic.ProcessVideo | nanoatmosphere/pages/10_Traffic_intelligence.py:199-231 | A zero frame rate fails exactly when there is a frame. Otherwise there is one point per fifth frame from frame 0, ⌈n/5⌉ in all. Point k is frame 5k at time 5k/fps, with that frame's vehicle count. |
| Traffic.Peak | nanoatmosphere/pages/10_Traffic_intelligence.py:243 | the peak is the count of some sampled frame and at least every other |
| Traffic.Average | nanoatmosphere/pages/10_Traffic_intelligence.py:242 | there is an average exactly when some frame was sampled, and it is the mean: times the number of points it gives the sum of the counts |
| Traffic.AverageAtMostPeak | nanoatmosphere/pages/10_Traffic_intelligence.py:242-243 | the average never exceeds the peak |
| Traffic.ZoneLabel | nanoatmosphere/pages/10_Traffic_intelligence.py:299-301 | "Moderate" exactly below 100, "Unhealthy" exactly from 100 |
| Traffic.ZoneLabelMonotone | nanoatmosphere/pages/10_Traffic_intelligence.py:299-301 | raising any pollutant never turns an unhealthy zone moderate |
| BreathIndex.Clamp01 | nanoatmosphere/pages/4_WhatIf_Simulator.py:38 | the clamp lies in [0,1] and leaves values in [0,1] alone |
| BreathIndex.Norm | nanoatmosphere/pages/4_WhatIf_Simulator.py:37-38 | norm lies in [0,1]; it is 0 at or below the floor and 1 at or above the ceiling |
| BreathIndex.Breathability | nanoatmosphere/pages/4_WhatIf_Simulator.py:37-39 | Breathability lies in [0,100]; it is 100 at NO2 ≤ 0.00005 and 0 at NO2 ≥ 0.00025 |
| BreathIndex.BreathabilityAntitone | nanoatmosphere/pages/4_WhatIf_Simulator.py:37-39 | more NO2 never gives a higher score |
| BreathIndex.BreathabilityLinear | nanoatmosphere/pages/4_WhatIf_Simulator.py:37-39 | between floor and ceiling the score is the linear interpolation |
| BreathIndex.BandFor | nanoatmosphere/pages/4_WhatIf_Simulator.py:103-108 | Healthy exactly from 80, Unhealthy exactly below 60, Caution in between |
| BreathIndex.BandMonotone | nanoatmosphere/pages/5_National_Reports.py:33-42 | more NO2 never gives a better band |
| WhatIf.TotalReduction | nanoatmosphere/pages/4_WhatIf_Simulator.py:76-80 | the reduction is non-negative, and zero exactly when no lever moved |
| WhatIf.SimulatedNo2 | nanoatmosphere/pages/4_WhatIf_Simulator.py:82 | the new NO2 is `max(base − reduction, 0)`: at least both, and equal to one of them; never above a non-negative baseline |
| WhatIf.ScenarioFor | nanoatmosphere/pages/4_WhatIf_Simulator.py:109-114 | Safe exactly from 80, "Still unsafe" exactly below 60 |
| WhatIf.ScenarioMatchesLabel | nanoatmosphere/pages/4_WhatIf_Simulator.py:103-114 | the scenario moves in lock-step with the label |
| WhatIf.Simulate | nanoatmosphere/pages/4_WhatIf_Simulator.py:34-114 | the reduction is `TotalReduction`, the new NO2 is `SimulatedNo2` of it, both scores are the shared Breathability of their NO2, the improvement is their difference and never negative, and label and scenario are those of the new score |
| WhatIf.NoWorse | nanoatmosphere/pages/4_WhatIf_Simulator.py:82-87 | flooring the reduced NO2 never lowers the score, even for a negative baseline |
| WhatIf.NoPolicyNoChange | nanoatmosphere/pages/4_WhatIf_Simulator.py:76-87 | with every slider at 0 the simulation reproduces the baseline |
| Microclouds.RiskFor | nanoatmosphere/pages/2_Predictive_Microclouds.py:40-44 | Low exactly from 80, Medium exactly in [60,80), High exactly below 60 |
| Microclouds.RiskMatchesBand | nanoatmosphere/pages/2_Predictive_Microclouds.py:40-44 | the risk levels are the shared Healthy/Caution/Unhealthy bands |
| Microclouds.RiskMonotone | nanoatmosphere/pages/2_Predictive_Microclouds.py:37-44 | risk never decreases as NO2 rises |
| Microclouds.Wording | nanoatmosphere/pages/2_Predictive_Microclouds.py:56 | the explanation uses one of the page's two phrases |
| Microclouds.SafeWordingIffLow | nanoatmosphere/pages/2_Predictive_Microclouds.py:40-56 | the "relatively safe" wording appears exactly when risk is Low |
| Microclouds.Analyze | nanoatmosphere/pages/2_Predictive_Microclouds.py:30-56 | the score is the shared Breathability of the default layer's NO2 and the risk is `RiskFor` of it; the explanation quotes the selected layer's NO2; the extreme readings give 100/Low and 0/High; the wording is the safe one exactly for Low risk |
| Microclouds.UnclickedPageFails | nanoatmosphere/pages/2_Predictive_Microclouds.py:27-51 | as written, a run with no clicked point ends in an exception |
| Microclouds.Page | nanoatmosphere/pages/2_Predictive_Microclouds.py:27-56 | the corrected page never fails: it warns exactly when no point is clicked, and otherwise shows what the written page shows |
| NationalReports.RowFor | nanoatmosphere/pages/5_National_Reports.py:30-53 | a row keeps the city and its gases; its score is the shared Breathability of the city's NO2 and its status is that score's band (Healthy from 80, Unhealthy below 60) |
| NationalReports.RowDependsOnlyOnNo2 | nanoatmosphere/pages/5_National_Reports.py:31-42 | score and status depend only on NO2 |
| NationalReports.StatusMonotone | nanoatmosphere/pages/5_National_Reports.py:33-42 | a dirtier city never gets a better status |
| NationalReports.NationalRows | nanoatmosphere/pages/5_National_Reports.py:17-53 | no rows when logged out; otherwise one row per city, in table order, each the city's `RowFor` |

## Left out

- Text.Strip and Text.Lower: ASCII only. They model `str.strip()` and `str.lower()` on ASCII white space and ASCII letters. Unicode white space and non-ASCII case mappings are not modelled.
- **bcrypt.** `hashpw`, `gensalt` and `checkpw` are a key-derivation function value (`Kdf`) and a drawn salt. Their cryptographic properties are not modelled.
- **File and network I/O.** The model does not cover:
  - the JSON user file, the report and score CSV files, `load_city_gases` and the CSV export;
  - SMTP delivery (`send_otp_email`), which appears only as the `Deliver` outcome;
  - the OpenAQ client and its random fallback in `get_city_aqi`;
  - the Gemini calls.

  Each store is the in-memory map or sequence it loads into.
- **Streamlit UI.** Rendering, navigation (`switch_page`, `rerun`), number formatting such as `:.0f` and `:.1e`, and progress bars are out of scope. So are the page-visit log appends on each page; the Pollution Alerts page's append labels itself "National Reports".
- Login.PressLogout: other pages' state. `session_state.clear()` also drops keys owned by other pages: the activity log, the alert reading and the hub's cached collections. The model resets only the login session.
- CommunityHub.SortByPoints: tie order. Python's `sorted` is stable. The insertion sort keeps equal-point users in dictionary order by construction, but that is not stated as a contract.
- CommunityHub.Hub.constructor: duplicate emails. It requires distinct emails in the dictionary order. `dict(zip(...))` over a score CSV with repeated emails would keep the last value.
- **Report contents.** NaN coordinates read back from the CSV are the `NotNumeric` coordinate, which fails every comparison. The uuid-based report id and the clock text are parameters.
- **Traffic detection.** YOLO inference, OpenCV decoding and drawing, and the WebRTC live loop with `time.sleep` are foreign calls. A prediction is given as the class ids of its boxes.
- Traffic.Density, Traffic.AnalyzeFrame and Traffic.VideoProcessor.Recv: zero-area frames. These require a frame of positive height and width. The source divides by the area and would raise `ZeroDivisionError` on an empty image.
- Traffic.Peak and Traffic.Average: no sampled frame. With no sampled frame they return `None`. The source's pandas code would fail on the missing `Vehicles` column.
- Traffic.ProcessVideo: progress bar and frame count. The progress bar's `frame_idx / frame_count`, and its division by a zero frame count, are not modelled.
- **Numbers.** Floating point is modelled as exact reals, and NaN readings are not modelled.
- PollutionAlerts.AlertState.Refresh: the eager default. In `session_state.get("current_aqi", get_city_aqi(city))` the default is always evaluated. Its value is the `fetched` parameter; the extra network call is not modelled.
- WhatIf.TotalReduction: coefficients. The coefficients are the ones the code computes with: 1e-8, 5e-8 and 1e-7. The comments beside them say 1e-11, 5e-10 and 1e-9.
- CityProfiles.InterpretCity: missing gases. A gas dictionary missing "NO2", "SO2" or "CO" raises `KeyError` in the source. `Gases` always has all three.
- AdminPanel.UserOf: non-string values. Log entries are string dictionaries. A `None` user stored under the "user" key is not distinguished from the text it would print as.
- **Other pages.** The God-Eye map, City Intelligence, the AI Policy Advisor and the NO2 sampler are not part of this model, apart from the NO2 lookups, which enter as parameters.

## Findings

| source | as written | input that shows it | evidently intended | confidence | as-written member | corrected member |
|---|---|---|---|---|---|---|
| nanoatmosphere/pages/2_Predictive_Microclouds.py:27-51 | The layer lookup and the explanation sit after the `if/else` on `clicked_point`, at top level. They read `lat`, `lon`, `breathability` and `risk`, which only the `else` branch assigns. | A session with no `clicked_point`: after the warning, line 51 raises `NameError` on `lat`. | The lookup and the explanation belong inside the clicked-point branch, so that an unclicked page only warns. | high; not executed | Microclouds.PageAsWritten (Microclouds.UnclickedPageFails) | Microclouds.Page |
