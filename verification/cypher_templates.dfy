/** The retriever's intent-to-Cypher map: one template per intent, in the
    order the map lists them.  Each query text is kept as literal pieces and
    `$name` parameter references, so that the parameters a template expects
    can be read off it.  Two query texts are written in short literal chunks
    so that the verifier can check that no stray `$` hides in them. */
module CypherTemplates {
  import opened CypherText

  /** A registered intent and the Cypher text it runs. */
  datatype Template = Template(intent: string, pieces: seq<Piece>) {
    /** The query text sent to the database. */
    function Query(): string { Render(pieces) }
  }

  /** The registered intents, in registration order. */
  function Intents(reg: seq<Template>): (ks: seq<string>)
    ensures |ks| == |reg|
    ensures forall i :: 0 <= i < |reg| ==> ks[i] == reg[i].intent
  {
    seq(|reg|, i requires 0 <= i < |reg| => reg[i].intent)
  }

  // analytics.cx.global_avg
  const AnalyticsCxGlobalAvg: Template := Template("analytics.cx.global_avg", [
    Lit(@"
            MATCH (j:Journey) 
            RETURN avg(j.food_satisfaction_score) as Global_Avg_Food_Score
        ")])

  // analytics.cx.by_class
  const AnalyticsCxByClass: Template := Template("analytics.cx.by_class", [
    Lit(@"
            MATCH (j:Journey) 
            RETURN j.passenger_class, avg(j.food_satisfaction_score) as avg_score 
            ORDER BY avg_score DESC
        ")])

  // analytics.cx.correlation_delay
  const AnalyticsCxCorrelationDelay: Template := Template("analytics.cx.correlation_delay", [
    Lit(@"
            MATCH (j:Journey) 
            WITH j.arrival_delay_minutes > "),
    Ref("min_delay"),
    Lit(@" AS is_delayed, avg(j.food_satisfaction_score) as avg_score 
            RETURN is_delayed, avg_score
        ")])

  // analytics.cx.fleet_ranking_top
  const AnalyticsCxFleetRankingTop: Template := Template("analytics.cx.fleet_ranking_top", [
    Lit(@"
            MATCH (j:Journey)-[:ON]->(f:Flight) 
            RETURN f.fleet_type_description, avg(j.food_satisfaction_score) as score 
            ORDER BY score DESC LIMIT 1
        ")])

  // analytics.cx.fleet_ranking_bottom
  const AnalyticsCxFleetRankingBottom: Template := Template("analytics.cx.fleet_ranking_bottom", [
    Lit(@"
            MATCH (j:Journey)-[:ON]->(f:Flight) 
            RETURN f.fleet_type_description, avg(j.food_satisfaction_score) as score 
            ORDER BY score ASC LIMIT 1
        ")])

  // analytics.cx.by_generation
  const AnalyticsCxByGeneration: Template := Template("analytics.cx.by_generation", [
    Lit(@"
            MATCH (p:Passenger)-[:TOOK]->(j:Journey) 
            RETURN p.generation, avg(j.food_satisfaction_score) as avg_score
        ")])

  // analytics.cx.by_loyalty_tier
  const AnalyticsCxByLoyaltyTier: Template := Template("analytics.cx.by_loyalty_tier", [
    Lit(@"
            MATCH (p:Passenger)-[:TOOK]->(j:Journey) 
            RETURN p.loyalty_program_level, avg(j.food_satisfaction_score) as avg_score
        ")])

  // analytics.cx.correlation_legs
  const AnalyticsCxCorrelationLegs: Template := Template("analytics.cx.correlation_legs", [
    Lit(@"
            MATCH (j:Journey) 
            RETURN j.number_of_legs, avg(j.food_satisfaction_score) as avg_score 
            ORDER BY j.number_of_legs
        ")])

  // analytics.cx.dest_ranking
  const AnalyticsCxDestRanking: Template := Template("analytics.cx.dest_ranking", [
    Lit(@"
            MATCH (j:Journey)-[:ON]->(f:Flight)-[:ARRIVES_AT]->(a:Airport) 
            RETURN a.station_code, avg(j.food_satisfaction_score) as score 
            ORDER BY score DESC LIMIT 1
        ")])

  // analytics.cx.origin_ranking
  const AnalyticsCxOriginRanking: Template := Template("analytics.cx.origin_ranking", [
    Lit(@"
            MATCH (j:Journey)-[:ON]->(f:Flight)-[:DEPARTS_FROM]->(a:Airport) 
            RETURN a.station_code, avg(j.food_satisfaction_score) as score 
            ORDER BY score ASC LIMIT 1
        ")])

  // analytics.cx.correlation_distance
  const AnalyticsCxCorrelationDistance: Template := Template("analytics.cx.correlation_distance", [
    Lit(@"
            MATCH (j:Journey) 
            RETURN CASE WHEN j.actual_flown_miles > 2000 THEN 'Long-Haul' ELSE 'Short-Haul' END as type, 
                   avg(j.food_satisfaction_score) as avg_score
        ")])

  // analytics.cx.score_distribution
  const AnalyticsCxScoreDistribution: Template := Template("analytics.cx.score_distribution", [
    Lit(@"
            MATCH (j:Journey) 
            RETURN j.food_satisfaction_score, count(*) as freq 
            ORDER BY j.food_satisfaction_score
        ")])

  // analytics.cx.flight_outliers
  const AnalyticsCxFlightOutliers: Template := Template("analytics.cx.flight_outliers", [
    Lit(@"
            MATCH (j:Journey)-[:ON]->(f:Flight) 
            WHERE j.food_satisfaction_score < "),
    Ref("max_score"),
    Lit(@" 
            RETURN f.flight_number, count(*) as poor_feedback_count 
            ORDER BY poor_feedback_count DESC
        ")])

  // analytics.cx.feedback_volume
  const AnalyticsCxFeedbackVolume: Template := Template("analytics.cx.feedback_volume", [
    Lit(@"
            MATCH (j:Journey) 
            RETURN j.passenger_class, count(j.feedback_ID) as feedback_count
        ")])

  // analytics.cx.freq_flyer_bias
  const AnalyticsCxFreqFlyerBias: Template := Template("analytics.cx.freq_flyer_bias", [
    Lit(@"
            MATCH (p:Passenger)-[:TOOK]->(j:Journey) 
            WITH p, count(j) as flight_count, avg(j.food_satisfaction_score) as avg_score 
            RETURN flight_count, avg_score 
            ORDER BY flight_count DESC
        ")])

  // analytics.cx.perfect_score_metric
  const AnalyticsCxPerfectScoreMetric: Template := Template("analytics.cx.perfect_score_metric", [
    Lit(@"
            MATCH (j:Journey) 
            WHERE j.food_satisfaction_score >= "),
    Ref("min_score"),
    Lit(@" 
            RETURN percentileDisc(j.arrival_delay_minutes, 0.5) as Median_Delay
        ")])

  // analytics.cx.route_ranking
  const AnalyticsCxRouteRanking: Template := Template("analytics.cx.route_ranking", [
    Lit(@"
            MATCH (origin:Airport)<-[:DEPARTS_FROM]-(f:Flight)-[:ARRIVES_AT]->(dest:Airport), (j:Journey)-[:ON]->(f) 
            RETURN origin.station_code, dest.station_code, avg(j.food_satisfaction_score) as score 
            ORDER BY score DESC LIMIT 1
        ")])

  // analytics.cx.factor_comparison
  const AnalyticsCxFactorComparison: Template := Template("analytics.cx.factor_comparison", [
    Lit(@"
            MATCH (j:Journey) 
            RETURN corr(j.number_of_legs, j.food_satisfaction_score) as Leg_Corr, 
                   corr(j.arrival_delay_minutes, j.food_satisfaction_score) as Delay_Corr
        ")])

  // analytics.cx.specific_segment
  const AnalyticsCxSpecificSegment: Template := Template("analytics.cx.specific_segment", [
    Lit(@"
            MATCH (p:Passenger {generation: "),
    Ref("generation"),
    Lit(@"})-[:TOOK]->(j:Journey {passenger_class: "),
    Ref("passenger_class"),
    Lit(@"}) 
            RETURN avg(j.food_satisfaction_score) as avg_score
        ")])

  // analytics.cx.fleet_failure_rate
  const AnalyticsCxFleetFailureRate: Template := Template("analytics.cx.fleet_failure_rate", [
    Lit(@"
            MATCH (j:Journey)-[:ON]->(f:Flight) 
            WITH f.fleet_type_description as fleet, count(j) as total, 
                 sum(CASE WHEN j.food_satisfaction_score <= "),
    Ref("max_score"),
    Lit(@" THEN 1 ELSE 0 END) as bad 
            RETURN fleet, (toFloat(bad)/total)*100 as Failure_Rate
        ")])

  // analytics.ops.avg_delay_fleet
  const AnalyticsOpsAvgDelayFleet: Template := Template("analytics.ops.avg_delay_fleet", [
    Lit(@"
            MATCH (j:Journey)-[:ON]->(f:Flight) 
            RETURN f.fleet_type_description, avg(j.arrival_delay_minutes) as avg_delay
        ")])

  // analytics.ops.origin_delay
  const AnalyticsOpsOriginDelay: Template := Template("analytics.ops.origin_delay", [
    Lit(@"
            MATCH (j:Journey)-[:ON]->(f:Flight)-[:DEPARTS_FROM]->(a:Airport) 
            RETURN a.station_code, avg(j.arrival_delay_minutes) as delay 
            ORDER BY delay DESC LIMIT 1
        ")])

  // analytics.ops.dest_delay
  const AnalyticsOpsDestDelay: Template := Template("analytics.ops.dest_delay", [
    Lit(@"
            MATCH (j:Journey)-[:ON]->(f:Flight)-[:ARRIVES_AT]->(a:Airport) 
            RETURN a.station_code, avg(j.arrival_delay_minutes) as delay 
            ORDER BY delay DESC LIMIT 1
        ")])

  // analytics.ops.correlation_miles_delay
  const AnalyticsOpsCorrelationMilesDelay: Template := Template("analytics.ops.correlation_miles_delay", [
    Lit(@"
            MATCH (j:Journey) 
            RETURN j.actual_flown_miles, j.arrival_delay_minutes
        ")])

  // analytics.ops.chronic_delay_flights
  const AnalyticsOpsChronicDelayFlights: Template := Template("analytics.ops.chronic_delay_flights", [
    Lit(@"
            MATCH (j:Journey)-[:ON]->(f:Flight) 
            WITH f.flight_number as num, count(j) as total, 
                 sum(CASE WHEN j.arrival_delay_minutes > 0 THEN 1 ELSE 0 END) as delayed 
            WHERE (toFloat(delayed)/total) > 0.5 
            RETURN num
        ")])

  // analytics.ops.delay_by_class
  const AnalyticsOpsDelayByClass: Template := Template("analytics.ops.delay_by_class", [
    Lit(@"
            MATCH (j:Journey) 
            RETURN j.passenger_class, avg(j.arrival_delay_minutes) as avg_delay
        ")])

  // analytics.ops.total_delay_fleet
  const AnalyticsOpsTotalDelayFleet: Template := Template("analytics.ops.total_delay_fleet", [
    Lit(@"
            MATCH (j:Journey)-[:ON]->(f:Flight {fleet_type_description: "),
    Ref("fleet_type"),
    Lit(@"}) 
            RETURN sum(j.arrival_delay_minutes) as total_delay_minutes
        ")])

  // analytics.ops.best_route_otp
  const AnalyticsOpsBestRouteOtp: Template := Template("analytics.ops.best_route_otp", [
    Lit(@"
            MATCH (o)<-[:DEPARTS_FROM]-(f)-[:ARRIVES_AT]->(d), (j)-[:ON]->(f) 
            RETURN o.station_code, d.station_code, avg(j.arrival_delay_minutes) as avg_delay 
            ORDER BY avg_delay ASC LIMIT 1
        ")])

  // analytics.ops.worst_route_otp
  const AnalyticsOpsWorstRouteOtp: Template := Template("analytics.ops.worst_route_otp", [
    Lit(@"
            MATCH (o)<-[:DEPARTS_FROM]-(f)-[:ARRIVES_AT]->(d), (j)-[:ON]->(f) 
            RETURN o.station_code, d.station_code, avg(j.arrival_delay_minutes) as avg_delay 
            ORDER BY avg_delay DESC LIMIT 1
        ")])

  // analytics.ops.legs_vs_delay
  const AnalyticsOpsLegsVsDelay: Template := Template("analytics.ops.legs_vs_delay", [
    Lit(@"
            MATCH (j:Journey) 
            RETURN j.number_of_legs, avg(j.arrival_delay_minutes) as avg_delay
        ")])

  // analytics.ops.long_haul_delay
  const AnalyticsOpsLongHaulDelay: Template := Template("analytics.ops.long_haul_delay", [
    Lit(@"
            MATCH (j:Journey) 
            WHERE j.actual_flown_miles > "),
    Ref("min_miles"),
    Lit(@" 
            RETURN avg(j.arrival_delay_minutes) as avg_delay
        ")])

  // analytics.ops.short_haul_reliability
  const AnalyticsOpsShortHaulReliability: Template := Template("analytics.ops.short_haul_reliability", [
    Lit(@"
            MATCH (j:Journey)-[:ON]->(f:Flight) 
            WHERE j.actual_flown_miles < "),
    Ref("max_miles"),
    Lit(@" 
            RETURN f.fleet_type_description, avg(j.arrival_delay_minutes) as delay 
            ORDER BY delay ASC LIMIT 1
        ")])

  // analytics.ops.perfect_flights
  const AnalyticsOpsPerfectFlights: Template := Template("analytics.ops.perfect_flights", [
    Lit(@"
            MATCH (f:Flight)<-[:ON]-(j:Journey) 
            WHERE j.arrival_delay_minutes = 0 
            RETURN distinct f.flight_number
        ")])

  // analytics.ops.global_delay_pct
  const AnalyticsOpsGlobalDelayPct: Template := Template("analytics.ops.global_delay_pct", [
    Lit(@"
            MATCH (j:Journey) 
            WITH count(j) as total, sum(CASE WHEN j.arrival_delay_minutes > "),
    Ref("min_delay"),
    Lit(@" THEN 1 ELSE 0 END) as delayed 
            RETURN (toFloat(delayed)/total)*100 as Percentage
        ")])

  // analytics.ops.generation_delay_dist
  const AnalyticsOpsGenerationDelayDist: Template := Template("analytics.ops.generation_delay_dist", [
    Lit(@"
            MATCH (p:Passenger)-[:TOOK]->(j:Journey) 
            RETURN p.generation, avg(j.arrival_delay_minutes) as avg_delay
        ")])

  // analytics.ops.route_variance
  const AnalyticsOpsRouteVariance: Template := Template("analytics.ops.route_variance", [
    Lit(@"
            MATCH (o)<-[:DEPARTS_FROM]-(f)-[:ARRIVES_AT]->(d), (j)-[:ON]->(f) 
            RETURN o.station_code, d.station_code, stDev(j.arrival_delay_minutes) as variance 
            ORDER BY variance DESC
        ")])

  // analytics.ops.audit_loyalty_service
  const AnalyticsOpsAuditLoyaltyService: Template := Template("analytics.ops.audit_loyalty_service", [
    Lit(@"
            MATCH (p:Passenger)-[:TOOK]->(j:Journey) 
            RETURN p.loyalty_program_level, avg(j.arrival_delay_minutes) as avg_delay
        ")])

  // analytics.ops.max_delay
  const AnalyticsOpsMaxDelay: Template := Template("analytics.ops.max_delay", [
    Lit(@"
            MATCH (j:Journey) 
            RETURN max(j.arrival_delay_minutes) as max_delay
        ")])

  // analytics.ops.long_delay_origin
  const AnalyticsOpsLongDelayOrigin: Template := Template("analytics.ops.long_delay_origin", [
    Lit(@"
            MATCH (j:Journey)-[:ON]->(f:Flight)-[:DEPARTS_FROM]->(a:Airport) 
            WHERE j.arrival_delay_minutes > "),
    Ref("min_delay"),
    Lit(@" 
            RETURN a.station_code, count(*) as long_delays 
            ORDER BY long_delays DESC LIMIT 1
        ")])

  // analytics.ops.early_arrival_miles
  const AnalyticsOpsEarlyArrivalMiles: Template := Template("analytics.ops.early_arrival_miles", [
    Lit(@"
            MATCH (j:Journey) 
            WHERE j.arrival_delay_minutes < 0 
            RETURN avg(j.actual_flown_miles) as avg_miles
        ")])

  // analytics.loyalty.breakdown
  const AnalyticsLoyaltyBreakdown: Template := Template("analytics.loyalty.breakdown", [
    Lit(@"
            MATCH (p:Passenger) 
            RETURN p.loyalty_program_level, count(*) as count
        ")])

  // analytics.loyalty.platinum_generation
  const AnalyticsLoyaltyPlatinumGeneration: Template := Template("analytics.loyalty.platinum_generation", [
    Lit(@"
            MATCH (p:Passenger {loyalty_program_level: "),
    Ref("loyalty_level"),
    Lit(@"}) 
            RETURN p.generation, count(*) as count 
            ORDER BY count DESC LIMIT 1
        ")])

  // analytics.loyalty.class_preference
  const AnalyticsLoyaltyClassPreference: Template := Template("analytics.loyalty.class_preference", [
    Lit(@"
            MATCH (p:Passenger)-[:TOOK]->(j:Journey) 
            RETURN p.loyalty_program_level, j.passenger_class, count(*) as count 
            ORDER BY count DESC
        ")])

  // analytics.loyalty.generation_miles
  const AnalyticsLoyaltyGenerationMiles: Template := Template("analytics.loyalty.generation_miles", [
    Lit(@"
            MATCH (p:Passenger)-[:TOOK]->(j:Journey) 
            RETURN p.generation, avg(j.actual_flown_miles) as avg_miles 
            ORDER BY avg_miles DESC
        ")])

  // analytics.loyalty.fleet_preference
  const AnalyticsLoyaltyFleetPreference: Template := Template("analytics.loyalty.fleet_preference", [
    Lit(@"
            MATCH (p:Passenger)-[:TOOK]->(j:Journey)-[:ON]->(f:Flight) 
            RETURN p.loyalty_program_level, f.fleet_type_description, count(*) as frequency
        ")])

  // analytics.loyalty.retention_rate
  const AnalyticsLoyaltyRetentionRate: Template := Template("analytics.loyalty.retention_rate", [
    Lit(@"
            MATCH (p:Passenger)-[:TOOK]->(j:Journey) 
            WITH p, count(j) as trips 
            WHERE trips > 1 
            RETURN count(p) as Returning_Passengers
        ")])

  // analytics.loyalty.feedback_volume
  const AnalyticsLoyaltyFeedbackVolume: Template := Template("analytics.loyalty.feedback_volume", [
    Lit(@"
            MATCH (p:Passenger)-[:TOOK]->(j:Journey) 
            RETURN p.loyalty_program_level, count(j.feedback_ID) as count 
            ORDER BY count DESC
        ")])

  // analytics.loyalty.entry_level_satisfaction
  const AnalyticsLoyaltyEntryLevelSatisfaction: Template := Template("analytics.loyalty.entry_level_satisfaction", [
    Lit(@"
            MATCH (p:Passenger {loyalty_program_level: "),
    Ref("loyalty_level"),
    Lit(@"})-[:TOOK]->(j:Journey) 
            RETURN avg(j.food_satisfaction_score) as avg_score
        ")])

  // analytics.loyalty.top_tier_routes
  const AnalyticsLoyaltyTopTierRoutes: Template := Template("analytics.loyalty.top_tier_routes", [
    Lit(@"
            MATCH (p:Passenger {loyalty_program_level: "),
    Ref("loyalty_level"),
    Lit(@"})-[:TOOK]->(j:Journey)-[:ON]->(f:Flight), (f)-[:DEPARTS_FROM]->(o), (f)-[:ARRIVES_AT]->(d) 
            RETURN o.station_code, d.station_code, count(*) as popularity 
            ORDER BY popularity DESC
        ")])

  // analytics.loyalty.genx_class_ratio
  const AnalyticsLoyaltyGenxClassRatio: Template := Template("analytics.loyalty.genx_class_ratio", [
    Lit(@"
            MATCH (p:Passenger {generation: "),
    Ref("generation"),
    Lit(@"})-[:TOOK]->(j:Journey) 
            RETURN j.passenger_class, count(*) as count
        ")])

  // analytics.loyalty.high_mileage_users
  const AnalyticsLoyaltyHighMileageUsers: Template := Template("analytics.loyalty.high_mileage_users", [
    Lit(@"
            MATCH (p:Passenger)-[:TOOK]->(j:Journey) 
            WITH p, sum(j.actual_flown_miles) as total_miles 
            WHERE total_miles > "),
    Ref("min_miles"),
    Lit(@" 
            RETURN p.record_locator
        ")])

  // analytics.loyalty.multileg_generation
  const AnalyticsLoyaltyMultilegGeneration: Template := Template("analytics.loyalty.multileg_generation", [
    Lit(@"
            MATCH (p:Passenger)-[:TOOK]->(j:Journey) 
            WHERE j.number_of_legs > 1 
            RETURN p.generation, count(*) as count 
            ORDER BY count DESC
        ")])

  // analytics.loyalty.passenger_count
  const AnalyticsLoyaltyPassengerCount: Template := Template("analytics.loyalty.passenger_count", [
    Lit(@"
            MATCH (p:Passenger) 
            RETURN count(distinct p) as total_passengers
        ")])

  // analytics.loyalty.top_tier_delays
  const AnalyticsLoyaltyTopTierDelays: Template := Template("analytics.loyalty.top_tier_delays", [
    Lit(@"
            MATCH (p:Passenger {loyalty_program_level: "),
    Ref("loyalty_level"),
    Lit(@"})-[:TOOK]->(j:Journey) 
            RETURN avg(j.arrival_delay_minutes) as avg_delay
        ")])

  // analytics.loyalty.high_value_origin
  const AnalyticsLoyaltyHighValueOrigin: Template := Template("analytics.loyalty.high_value_origin", [
    Lit(@"
            MATCH (p:Passenger {loyalty_program_level: "),
    Ref("loyalty_level"),
    Lit(@"})-[:TOOK]->(j:Journey)-[:ON]->(f)-[:DEPARTS_FROM]->(a:Airport) 
            RETURN a.station_code, count(distinct p) as pax_count 
            ORDER BY pax_count DESC
        ")])

  // analytics.loyalty.gen_comparison
  const AnalyticsLoyaltyGenComparison: Template := Template("analytics.loyalty.gen_comparison", [
    Lit(@"
            MATCH (p:Passenger)-[:TOOK]->(j:Journey) 
            WHERE p.generation IN "),
    Ref("generations"),
    Lit(@" 
            RETURN p.generation, j.passenger_class, count(*) as count
        ")])

  // analytics.loyalty.tolerance
  const AnalyticsLoyaltyTolerance: Template := Template("analytics.loyalty.tolerance", [
    Lit(@"
            MATCH (p:Passenger)-[:TOOK]->(j:Journey) 
            WHERE j.arrival_delay_minutes > "),
    Ref("min_delay"),
    Lit(@" 
            RETURN p.loyalty_program_level, avg(j.food_satisfaction_score) as score 
            ORDER BY score DESC
        ")])

  // analytics.loyalty.tier_mileage
  const AnalyticsLoyaltyTierMileage: Template := Template("analytics.loyalty.tier_mileage", [
    Lit(@"
            MATCH (p:Passenger {loyalty_program_level: "),
    Ref("loyalty_level"),
    Lit(@"})-[:TOOK]->(j:Journey) 
            RETURN sum(j.actual_flown_miles) as total_miles
        ")])

  // analytics.loyalty.no_level_count
  const AnalyticsLoyaltyNoLevelCount: Template := Template("analytics.loyalty.no_level_count", [
    Lit(@"
            MATCH (p:Passenger) 
            WHERE p.loyalty_program_level IS NULL 
            RETURN count(p) as count
        ")])

  // analytics.loyalty.gold_fleet
  const AnalyticsLoyaltyGoldFleet: Template := Template("analytics.loyalty.gold_fleet", [
    Lit(@"
            MATCH (p:Passenger {loyalty_program_level: "),
    Ref("loyalty_level"),
    Lit(@"})-[:TOOK]->(j:Journey)-[:ON]->(f:Flight) 
            RETURN f.fleet_type_description, count(*) as count 
            ORDER BY count DESC LIMIT 1
        ")])

  // analytics.network.fleet_count
  const AnalyticsNetworkFleetCount: Template := Template("analytics.network.fleet_count", [
    Lit(@"
            MATCH (f:Flight) 
            RETURN count(distinct f.fleet_type_description) as unique_fleets
        ")])

  // analytics.network.fleet_range
  const AnalyticsNetworkFleetRange: Template := Template("analytics.network.fleet_range", [
    Lit(@"
            MATCH (j:Journey)-[:ON]->(f:Flight) 
            RETURN f.fleet_type_description, avg(j.actual_flown_miles) as dist 
            ORDER BY dist DESC
        ")])

  // analytics.network.fleet_legs
  const AnalyticsNetworkFleetLegs: Template := Template("analytics.network.fleet_legs", [
    Lit(@"
            MATCH (j:Journey)-[:ON]->(f:Flight) 
            RETURN f.fleet_type_description, avg(j.number_of_legs) as avg_legs 
            ORDER BY avg_legs DESC
        ")])

  // analytics.network.airport_aircraft
  const AnalyticsNetworkAirportAircraft: Template := Template("analytics.network.airport_aircraft", [
    Lit(@"
            MATCH (f:Flight)-[:ARRIVES_AT]->(a:Airport {station_code: "),
    Ref("station_code"),
    Lit(@"}) 
            RETURN f.fleet_type_description, count(*) as count 
            ORDER BY count DESC LIMIT 1
        ")])

  // analytics.network.fleet_capacity
  const AnalyticsNetworkFleetCapacity: Template := Template("analytics.network.fleet_capacity", [
    Lit(@"
            MATCH (p:Passenger)-[:TOOK]->(j:Journey)-[:ON]->(f:Flight) 
            RETURN f.fleet_type_description, count(distinct p) / count(distinct f.flight_number) as approx_capacity 
            ORDER BY approx_capacity DESC
        ")])

  // analytics.network.hub_identification
  const AnalyticsNetworkHubIdentification: Template := Template("analytics.network.hub_identification", [
    Lit(@"
            MATCH (a:Airport)<-[:ARRIVES_AT|DEPARTS_FROM]-(f:Flight) 
            RETURN a.station_code, count(f) as degree 
            ORDER BY degree DESC
        ")])

  // analytics.network.fleet_restrictions
  const AnalyticsNetworkFleetRestrictions: Template := Template("analytics.network.fleet_restrictions", [
    Lit(@"
            MATCH (f:Flight)-[:ARRIVES_AT]->(a:Airport) 
            WITH collect(distinct f.fleet_type_description) as visited_fleets, a 
            MATCH (all_fleets:Flight) 
            WITH collect(distinct all_fleets.fleet_type_description) as global_fleets, visited_fleets, a 
            RETURN a.station_code, [x IN global_fleets WHERE NOT x IN visited_fleets] as never_visits
        ")])

  // analytics.network.fleet_utilization
  const AnalyticsNetworkFleetUtilization: Template := Template("analytics.network.fleet_utilization", [
    Lit(@"
            MATCH (j:Journey)-[:ON]->(f:Flight) 
            RETURN f.fleet_type_description, sum(j.actual_flown_miles) as total_miles
        ")])

  // analytics.network.biz_class_fleet
  const AnalyticsNetworkBizClassFleet: Template := Template("analytics.network.biz_class_fleet", [
    Lit(@"
            MATCH (j:Journey {passenger_class: "),
    Ref("passenger_class"),
    Lit(@"})-[:ON]->(f:Flight) 
            RETURN f.fleet_type_description, count(*) as count 
            ORDER BY count DESC
        ")])

  // analytics.network.airport_count
  const AnalyticsNetworkAirportCount: Template := Template("analytics.network.airport_count", [
    Lit(@"
            MATCH (a:Airport) 
            RETURN count(a) as total_airports
        ")])

  // analytics.network.fleet_cx_fail
  const AnalyticsNetworkFleetCxFail: Template := Template("analytics.network.fleet_cx_fail", [
    Lit(@"
            MATCH (j:Journey)-[:ON]->(f:Flight) 
            RETURN f.fleet_type_description, avg(j.food_satisfaction_score) as score 
            ORDER BY score ASC LIMIT 1
        ")])

  // analytics.network.orphan_airports
  const AnalyticsNetworkOrphanAirports: Template := Template("analytics.network.orphan_airports", [
    Lit(@"
            MATCH (a:Airport)<-[:ARRIVES_AT|DEPARTS_FROM]-(f:Flight) 
            WITH a, count(distinct f) as flights 
            WHERE flights <= 2 
            RETURN a.station_code
        ")])

  // analytics.network.demographic_utilization
  const AnalyticsNetworkDemographicUtilization: Template := Template("analytics.network.demographic_utilization", [
    Lit(@"
            MATCH (p:Passenger)-[:TOOK]->(j:Journey)-[:ON]->(f:Flight) 
            RETURN p.generation, f.fleet_type_description, count(*) as count
        ")])

  // analytics.network.multileg_aircraft
  const AnalyticsNetworkMultilegAircraft: Template := Template("analytics.network.multileg_aircraft", [
    Lit(@"
            MATCH (j:Journey)-[:ON]->(f:Flight) 
            WHERE j.number_of_legs > 1 
            RETURN f.fleet_type_description, count(*) as count 
            ORDER BY count DESC
        ")])

  // analytics.network.economy_workhorse
  const AnalyticsNetworkEconomyWorkhorse: Template := Template("analytics.network.economy_workhorse", [
    Lit(@"
            MATCH ("
      + @"j:Journey {passenger"
      + @"_class: 'Economy'})-"
      + @"[:ON]->(f:Flight) 
 "
      + @"           RETURN f."
      + @"fleet_type_descripti"
      + @"on, count(*) as coun"
      + @"t 
            ORDER"
      + @" BY count DESC LIMIT"
      + @" 1
        ")])

  // analytics.network.shorthaul_only
  const AnalyticsNetworkShorthaulOnly: Template := Template("analytics.network.shorthaul_only", [
    Lit(@"
            MATCH (j:Journey)-[:ON]->(f:Flight) 
            WITH f.fleet_type_description as fleet, max(j.actual_flown_miles) as max_dist 
            WHERE max_dist < "),
    Ref("max_miles"),
    Lit(@" 
            RETURN fleet
        ")])

  // analytics.network.load_factor
  const AnalyticsNetworkLoadFactor: Template := Template("analytics.network.load_factor", [
    Lit(@"
            MATCH (j:Journey)-[:ON]->(f:Flight) 
            RETURN f.flight_number, count(j) as passengers
        ")])

  // analytics.network.delay_prone_fleets
  const AnalyticsNetworkDelayProneFleets: Template := Template("analytics.network.delay_prone_fleets", [
    Lit(@"
            MATCH (j:Journey)-[:ON]->(f:Flight) 
            WHERE j.arrival_delay_minutes > "),
    Ref("min_delay"),
    Lit(@" 
            RETURN f.fleet_type_description, count(*) as count 
            ORDER BY count DESC
        ")])

  // analytics.network.route_frequency
  const AnalyticsNetworkRouteFrequency: Template := Template("analytics.network.route_frequency", [
    Lit(@"
            MATCH ("
      + @"f:Flight)-[:DEPARTS_"
      + @"FROM]->(o:Airport {s"
      + @"tation_code: "),
    Ref("origin"),
    Lit(@"}), (f)-[:ARRIVES_AT"
      + @"]->(d:Airport {stati"
      + @"on_code: "),
    Ref("dest"),
    Lit(@"}) 
            RETU"
      + @"RN count(f) as fligh"
      + @"t_count
        ")])

  // analytics.network.consistent_cx
  const AnalyticsNetworkConsistentCx: Template := Template("analytics.network.consistent_cx", [
    Lit(@"
            MATCH (j:Journey)-[:ON]->(f:Flight) 
            RETURN f.fleet_type_description, stDev(j.food_satisfaction_score) as variability 
            ORDER BY variability ASC LIMIT 1
        ")])

  // graph.path.specific_criteria
  const GraphPathSpecificCriteria: Template := Template("graph.path.specific_criteria", [
    Lit(@"
            MATCH (p:Passenger)-[:TOOK]->(j:Journey)-[:ON]->(f:Flight), 
                  (f)-[:DEPARTS_FROM]->(:Airport {station_code: "),
    Ref("origin"),
    Lit(@"}), 
                  (f)-[:ARRIVES_AT]->(:Airport {station_code: "),
    Ref("dest"),
    Lit(@"}) 
            WHERE f.fleet_type_description = "),
    Ref("fleet_type"),
    Lit(@" 
            RETURN p.record_locator
        ")])

  // graph.path.sequence
  const GraphPathSequence: Template := Template("graph.path.sequence", [
    Lit(@"
            MATCH (p:Passenger)-[:TOOK]->(j:Journey)-[:ON]->(f:Flight)-[:DEPARTS_FROM]->(o:Airport), 
                  (f)-[:ARRIVES_AT]->(d:Airport) 
            RETURN p.record_locator, collect(o.station_code + '->' + d.station_code) as path 
            ORDER BY j.feedback_ID
        ")])

  // graph.collab.co_passengers
  const GraphCollabCoPassengers: Template := Template("graph.collab.co_passengers", [
    Lit(@"
            MATCH (vip:Passenger {record_locator: "),
    Ref("vip_id"),
    Lit(@"})-[:TOOK]->(:Journey)-[:ON]->(f:Flight)<-[:ON]-(:Journey)<-[:TOOK]-(copassenger:Passenger) 
            RETURN distinct copassenger.record_locator
        ")])

  // graph.pattern.complete_coverage
  const GraphPatternCompleteCoverage: Template := Template("graph.pattern.complete_coverage", [
    Lit(@"
            MATCH (f:Flight) 
            WITH collect(distinct f.fleet_type_description) as all_fleets 
            MATCH (p:Passenger)-[:TOOK]->(j:Journey)-[:ON]->(f_flown:Flight) 
            WITH p, all_fleets, collect(distinct f_flown.fleet_type_description) as flown_fleets 
            WHERE size(flown_fleets) = size(all_fleets) 
            RETURN p.record_locator
        ")])

  // graph.analytics.super_connector
  const GraphAnalyticsSuperConnector: Template := Template("graph.analytics.super_connector", [
    Lit(@"
            MATCH (a:Airport)<-[:DEPARTS_FROM]-(f:Flight)<-[:ON]-(j:Journey) 
            WHERE j.arrival_delay_minutes > "),
    Ref("min_delay"),
    Lit(@" AND j.food_satisfaction_score < "),
    Ref("max_score"),
    Lit(@" 
            RETURN a.station_code, count(distinct f) as incidents 
            ORDER BY incidents DESC
        ")])

  // graph.analytics.route_clustering
  const GraphAnalyticsRouteClustering: Template := Template("graph.analytics.route_clustering", [
    Lit(@"
            MATCH (f:Flight)-[:DEPARTS_FROM]->(o), (f)-[:ARRIVES_AT]->(d) 
            WITH o.station_code + '-' + d.station_code as route, count(distinct f) as freq 
            RETURN route, freq 
            ORDER BY freq DESC
        ")])

  // graph.flow.feeder_airports
  const GraphFlowFeederAirports: Template := Template("graph.flow.feeder_airports", [
    Lit(@"
            MATCH (j:Journey)-[:ON]->(f:Flight)-[:DEPARTS_FROM]->(a:Airport) 
            WHERE j.actual_flown_miles > "),
    Ref("min_miles"),
    Lit(@" 
            RETURN a.station_code, count(distinct p) as passengers_fed 
            ORDER BY passengers_fed DESC
        ")])

  // graph.algo.degree_centrality
  const GraphAlgoDegreeCentrality: Template := Template("graph.algo.degree_centrality", [
    Lit(@"
            MATCH (a:Airport) 
            RETURN a.station_code, size((a)--()) as degree 
            ORDER BY degree DESC
        ")])

  // graph.pattern.consecutive_delays
  const GraphPatternConsecutiveDelays: Template := Template("graph.pattern.consecutive_delays", [
    Lit(@"
            MATCH (p:Passenger)-[:TOOK]->(j1:Journey), (p)-[:TOOK]->(j2:Journey) 
            WHERE j1.arrival_delay_minutes > "),
    Ref("min_delay"),
    Lit(@" AND j2.arrival_delay_minutes > "),
    Ref("min_delay"),
    Lit(@" AND j1 <> j2 
            RETURN distinct p.record_locator
        ")])

  // graph.analytics.bridge_flights
  const GraphAnalyticsBridgeFlights: Template := Template("graph.analytics.bridge_flights", [
    Lit(@"
            MATCH (c1:Airport {station_code: "),
    Ref("cluster_a"),
    Lit(@"}), (c2:Airport {station_code: "),
    Ref("cluster_b"),
    Lit(@"}), (f:Flight) 
            WHERE (f)-[:DEPARTS_FROM]->(c1) AND (f)-[:ARRIVES_AT]->(c2) 
            RETURN f.flight_number
        ")])

  // graph.path.constrained_routing
  const GraphPathConstrainedRouting: Template := Template("graph.path.constrained_routing", [
    Lit(@"
            MATCH path = (a:Airport {station_code: "),
    Ref("origin"),
    Lit(@"})<-[:DEPARTS_FROM]-(f:Flight)-[:ARRIVES_AT]->(b:Airport {station_code: "),
    Ref("dest"),
    Lit(@"}) 
            WHERE f.fleet_type_description = "),
    Ref("fleet_type"),
    Lit(@" 
            RETURN path
        ")])

  // graph.analytics.explorer_passengers
  const GraphAnalyticsExplorerPassengers: Template := Template("graph.analytics.explorer_passengers", [
    Lit(@"
            MATCH (p:Passenger)-[:TOOK]->(:Journey)-[:ON]->(:Flight)-[:ARRIVES_AT]->(d:Airport) 
            RETURN p.record_locator, count(distinct d) as unique_dests 
            ORDER BY unique_dests DESC
        ")])

  // graph.algo.shortest_path
  const GraphAlgoShortestPath: Template := Template("graph.algo.shortest_path", [
    Lit(@"
            MATCH (start:Airport {station_code: "),
    Ref("origin"),
    Lit(@"}), (end:Airport {station_code: "),
    Ref("dest"),
    Lit(@"}) 
            MATCH path = shortestPath((start)-[*]-(end)) 
            RETURN path
        ")])

  // graph.similarity.satisfaction_profile
  const GraphSimilaritySatisfactionProfile: Template := Template("graph.similarity.satisfaction_profile", [
    Lit(@"
            MATCH (p1:Passenger)-[:TOOK]->(j1:Journey), (p2:Passenger)-[:TOOK]->(j2:Journey) 
            WHERE p1 <> p2 AND j1.food_satisfaction_score = j2.food_satisfaction_score AND j1.passenger_class = j2.passenger_class 
            RETURN p1.record_locator, p2.record_locator LIMIT 10
        ")])

  // graph.anomaly.catering_fail
  const GraphAnomalyCateringFail: Template := Template("graph.anomaly.catering_fail", [
    Lit(@"
            MATCH (j:Journey)-[:ON]->(f:Flight) 
            WITH f, collect(j.food_satisfaction_score) as scores 
            WHERE all(s IN scores WHERE s <= 2) 
            RETURN f.flight_number
        ")])

  // graph.flow.next_best_action
  const GraphFlowNextBestAction: Template := Template("graph.flow.next_best_action", [
    Lit(@"
            MATCH (p:Passenger)-[:TOOK]->(j1:Journey)-[:ON]->(:Flight)-[:ARRIVES_AT]->(mid:Airport {station_code: "),
    Ref("station_code"),
    Lit(@"}) 
            MATCH (p)-[:TOOK]->(j2:Journey)-[:ON]->(:Flight)-[:DEPARTS_FROM]->(mid)-[:ARRIVES_AT]->(next:Airport) 
            RETURN next.station_code, count(*) as freq 
            ORDER BY freq DESC
        ")])

  // graph.analytics.aircraft_loyalty
  const GraphAnalyticsAircraftLoyalty: Template := Template("graph.analytics.aircraft_loyalty", [
    Lit(@"
            MATCH (p:Passenger)-[:TOOK]->(j:Journey)-[:ON]->(f:Flight {fleet_type_description: "),
    Ref("fleet_type"),
    Lit(@"}) 
            RETURN p.record_locator, sum(j.actual_flown_miles) as total 
            ORDER BY total DESC
        ")])

  // graph.cx.hub_transfer_effect
  const GraphCxHubTransferEffect: Template := Template("graph.cx.hub_transfer_effect", [
    Lit(@"
            MATCH (p:Passenger)-[:TOOK]->(j:Journey) 
            WHERE j.number_of_legs > 1 
            RETURN avg(j.food_satisfaction_score) as avg_score
        ")])

  // graph.pattern.circular_journey
  const GraphPatternCircularJourney: Template := Template("graph.pattern.circular_journey", [
    Lit(@"
            MATCH (p:Passenger)-[:TOOK]->(j_out)-[:ON]->(f_out)-[:DEPARTS_FROM]->(start:Airport), 
                  (p)-[:TOOK]->(j_in)-[:ON]->(f_in)-[:ARRIVES_AT]->(start) 
            WHERE j_out.feedback_ID < j_in.feedback_ID 
            RETURN p.record_locator
        ")])

  // graph.segmentation.unhappy_influencers
  const GraphSegmentationUnhappyInfluencers: Template := Template("graph.segmentation.unhappy_influencers", [
    Lit(@"
            MATCH (p:Passenger)-[:TOOK]->(j:Journey) 
            WHERE p.loyalty_program_level IN "),
    Ref("loyalty_levels"),
    Lit(@" 
              AND j.arrival_delay_minutes > "),
    Ref("min_delay"),
    Lit(@" AND j.food_satisfaction_score < "),
    Ref("max_score"),
    Lit(@" 
            RETURN p.record_locator
        ")])

  /** The customer-experience analytics templates, registered under `analytics.cx.` keys. */
  const CxTemplates: seq<Template> := [
    AnalyticsCxGlobalAvg,
    AnalyticsCxByClass,
    AnalyticsCxCorrelationDelay,
    AnalyticsCxFleetRankingTop,
    AnalyticsCxFleetRankingBottom,
    AnalyticsCxByGeneration,
    AnalyticsCxByLoyaltyTier,
    AnalyticsCxCorrelationLegs,
    AnalyticsCxDestRanking,
    AnalyticsCxOriginRanking,
    AnalyticsCxCorrelationDistance,
    AnalyticsCxScoreDistribution,
    AnalyticsCxFlightOutliers,
    AnalyticsCxFeedbackVolume,
    AnalyticsCxFreqFlyerBias,
    AnalyticsCxPerfectScoreMetric,
    AnalyticsCxRouteRanking,
    AnalyticsCxFactorComparison,
    AnalyticsCxSpecificSegment,
    AnalyticsCxFleetFailureRate
  ]

  /** The operations analytics templates, registered under `analytics.ops.` keys. */
  const OpsTemplates: seq<Template> := [
    AnalyticsOpsAvgDelayFleet,
    AnalyticsOpsOriginDelay,
    AnalyticsOpsDestDelay,
    AnalyticsOpsCorrelationMilesDelay,
    AnalyticsOpsChronicDelayFlights,
    AnalyticsOpsDelayByClass,
    AnalyticsOpsTotalDelayFleet,
    AnalyticsOpsBestRouteOtp,
    AnalyticsOpsWorstRouteOtp,
    AnalyticsOpsLegsVsDelay,
    AnalyticsOpsLongHaulDelay,
    AnalyticsOpsShortHaulReliability,
    AnalyticsOpsPerfectFlights,
    AnalyticsOpsGlobalDelayPct,
    AnalyticsOpsGenerationDelayDist,
    AnalyticsOpsRouteVariance,
    AnalyticsOpsAuditLoyaltyService,
    AnalyticsOpsMaxDelay,
    AnalyticsOpsLongDelayOrigin,
    AnalyticsOpsEarlyArrivalMiles
  ]

  /** The loyalty analytics templates, registered under `analytics.loyalty.` keys. */
  const LoyaltyTemplates: seq<Template> := [
    AnalyticsLoyaltyBreakdown,
    AnalyticsLoyaltyPlatinumGeneration,
    AnalyticsLoyaltyClassPreference,
    AnalyticsLoyaltyGenerationMiles,
    AnalyticsLoyaltyFleetPreference,
    AnalyticsLoyaltyRetentionRate,
    AnalyticsLoyaltyFeedbackVolume,
    AnalyticsLoyaltyEntryLevelSatisfaction,
    AnalyticsLoyaltyTopTierRoutes,
    AnalyticsLoyaltyGenxClassRatio,
    AnalyticsLoyaltyHighMileageUsers,
    AnalyticsLoyaltyMultilegGeneration,
    AnalyticsLoyaltyPassengerCount,
    AnalyticsLoyaltyTopTierDelays,
    AnalyticsLoyaltyHighValueOrigin,
    AnalyticsLoyaltyGenComparison,
    AnalyticsLoyaltyTolerance,
    AnalyticsLoyaltyTierMileage,
    AnalyticsLoyaltyNoLevelCount,
    AnalyticsLoyaltyGoldFleet
  ]

  /** The fleet and network analytics templates, registered under `analytics.network.` keys. */
  const NetworkTemplates: seq<Template> := [
    AnalyticsNetworkFleetCount,
    AnalyticsNetworkFleetRange,
    AnalyticsNetworkFleetLegs,
    AnalyticsNetworkAirportAircraft,
    AnalyticsNetworkFleetCapacity,
    AnalyticsNetworkHubIdentification,
    AnalyticsNetworkFleetRestrictions,
    AnalyticsNetworkFleetUtilization,
    AnalyticsNetworkBizClassFleet,
    AnalyticsNetworkAirportCount,
    AnalyticsNetworkFleetCxFail,
    AnalyticsNetworkOrphanAirports,
    AnalyticsNetworkDemographicUtilization,
    AnalyticsNetworkMultilegAircraft,
    AnalyticsNetworkEconomyWorkhorse,
    AnalyticsNetworkShorthaulOnly,
    AnalyticsNetworkLoadFactor,
    AnalyticsNetworkDelayProneFleets,
    AnalyticsNetworkRouteFrequency,
    AnalyticsNetworkConsistentCx
  ]

  /** The graph traversal templates, registered under `graph.` keys. */
  const GraphTemplates: seq<Template> := [
    GraphPathSpecificCriteria,
    GraphPathSequence,
    GraphCollabCoPassengers,
    GraphPatternCompleteCoverage,
    GraphAnalyticsSuperConnector,
    GraphAnalyticsRouteClustering,
    GraphFlowFeederAirports,
    GraphAlgoDegreeCentrality,
    GraphPatternConsecutiveDelays,
    GraphAnalyticsBridgeFlights,
    GraphPathConstrainedRouting,
    GraphAnalyticsExplorerPassengers,
    GraphAlgoShortestPath,
    GraphSimilaritySatisfactionProfile,
    GraphAnomalyCateringFail,
    GraphFlowNextBestAction,
    GraphAnalyticsAircraftLoyalty,
    GraphCxHubTransferEffect,
    GraphPatternCircularJourney,
    GraphSegmentationUnhappyInfluencers
  ]

  /** Every template the retriever registers, in the order of the retriever's
      Python dictionary literal. */
  const Registry: seq<Template> :=
    CxTemplates + OpsTemplates + LoyaltyTemplates + NetworkTemplates + GraphTemplates

  /** No two templates of `reg` share an intent, so a dictionary built from
      `reg` keeps every one of them. */
  predicate DistinctIntents(reg: seq<Template>) {
    forall i, j :: 0 <= i < j < |reg| ==> reg[i].intent != reg[j].intent
  }

  /** The family of an intent key: the letter after `analytics.` for the
      analytics keys, and the first letter otherwise. */
  function Family(key: string): char {
    if |key| > 10 && key[0] == 'a' then key[10]
    else if |key| > 0 then key[0]
    else ' '
  }

  /** Every intent of `reg` belongs to one of the families `fs`. */
  predicate FamiliesIn(reg: seq<Template>, fs: set<char>) {
    forall i :: 0 <= i < |reg| ==> Family(reg[i].intent) in fs
  }

  /** A registry whose intents are a repetition-free family of keys. */
  lemma FromKeys(reg: seq<Template>, keys: seq<string>, f: char)
    requires Intents(reg) == keys
    requires forall i, j :: 0 <= i < j < |keys| ==> keys[i] != keys[j]
    requires forall i :: 0 <= i < |keys| ==> Family(keys[i]) == f
    ensures DistinctIntents(reg) && FamiliesIn(reg, {f})
  {
    forall i, j | 0 <= i < j < |reg|
      ensures reg[i].intent != reg[j].intent
    {
      assert reg[i].intent == keys[i] && reg[j].intent == keys[j];
    }
    forall i | 0 <= i < |reg|
      ensures Family(reg[i].intent) in {f}
    {
      assert reg[i].intent == keys[i];
    }
  }

  /** The customer-experience keys, in registration order. */
  const CxKeys: seq<string> := [
    "analytics.cx.global_avg",
    "analytics.cx.by_class",
    "analytics.cx.correlation_delay",
    "analytics.cx.fleet_ranking_top",
    "analytics.cx.fleet_ranking_bottom",
    "analytics.cx.by_generation",
    "analytics.cx.by_loyalty_tier",
    "analytics.cx.correlation_legs",
    "analytics.cx.dest_ranking",
    "analytics.cx.origin_ranking",
    "analytics.cx.correlation_distance",
    "analytics.cx.score_distribution",
    "analytics.cx.flight_outliers",
    "analytics.cx.feedback_volume",
    "analytics.cx.freq_flyer_bias",
    "analytics.cx.perfect_score_metric",
    "analytics.cx.route_ranking",
    "analytics.cx.factor_comparison",
    "analytics.cx.specific_segment",
    "analytics.cx.fleet_failure_rate"
  ]

  lemma CxKeysDistinct()
    ensures forall i, j :: 0 <= i < j < |CxKeys| ==> CxKeys[i] != CxKeys[j]
    ensures forall i :: 0 <= i < |CxKeys| ==> Family(CxKeys[i]) == 'c'
  {}

  lemma CxRegistered()
    ensures DistinctIntents(CxTemplates) && FamiliesIn(CxTemplates, {'c'})
  {
    assert Intents(CxTemplates) == CxKeys;
    CxKeysDistinct();
    FromKeys(CxTemplates, CxKeys, 'c');
  }

  /** The operations keys, in registration order. */
  const OpsKeys: seq<string> := [
    "analytics.ops.avg_delay_fleet",
    "analytics.ops.origin_delay",
    "analytics.ops.dest_delay",
    "analytics.ops.correlation_miles_delay",
    "analytics.ops.chronic_delay_flights",
    "analytics.ops.delay_by_class",
    "analytics.ops.total_delay_fleet",
    "analytics.ops.best_route_otp",
    "analytics.ops.worst_route_otp",
    "analytics.ops.legs_vs_delay",
    "analytics.ops.long_haul_delay",
    "analytics.ops.short_haul_reliability",
    "analytics.ops.perfect_flights",
    "analytics.ops.global_delay_pct",
    "analytics.ops.generation_delay_dist",
    "analytics.ops.route_variance",
    "analytics.ops.audit_loyalty_service",
    "analytics.ops.max_delay",
    "analytics.ops.long_delay_origin",
    "analytics.ops.early_arrival_miles"
  ]

  lemma OpsKeysDistinct()
    ensures forall i, j :: 0 <= i < j < |OpsKeys| ==> OpsKeys[i] != OpsKeys[j]
    ensures forall i :: 0 <= i < |OpsKeys| ==> Family(OpsKeys[i]) == 'o'
  {}

  lemma OpsRegistered()
    ensures DistinctIntents(OpsTemplates) && FamiliesIn(OpsTemplates, {'o'})
  {
    assert Intents(OpsTemplates) == OpsKeys;
    OpsKeysDistinct();
    FromKeys(OpsTemplates, OpsKeys, 'o');
  }

  /** The loyalty keys, in registration order. */
  const LoyaltyKeys: seq<string> := [
    "analytics.loyalty.breakdown",
    "analytics.loyalty.platinum_generation",
    "analytics.loyalty.class_preference",
    "analytics.loyalty.generation_miles",
    "analytics.loyalty.fleet_preference",
    "analytics.loyalty.retention_rate",
    "analytics.loyalty.feedback_volume",
    "analytics.loyalty.entry_level_satisfaction",
    "analytics.loyalty.top_tier_routes",
    "analytics.loyalty.genx_class_ratio",
    "analytics.loyalty.high_mileage_users",
    "analytics.loyalty.multileg_generation",
    "analytics.loyalty.passenger_count",
    "analytics.loyalty.top_tier_delays",
    "analytics.loyalty.high_value_origin",
    "analytics.loyalty.gen_comparison",
    "analytics.loyalty.tolerance",
    "analytics.loyalty.tier_mileage",
    "analytics.loyalty.no_level_count",
    "analytics.loyalty.gold_fleet"
  ]

  lemma LoyaltyKeysDistinct()
    ensures forall i, j :: 0 <= i < j < |LoyaltyKeys| ==> LoyaltyKeys[i] != LoyaltyKeys[j]
    ensures forall i :: 0 <= i < |LoyaltyKeys| ==> Family(LoyaltyKeys[i]) == 'l'
  {}

  lemma LoyaltyRegistered()
    ensures DistinctIntents(LoyaltyTemplates) && FamiliesIn(LoyaltyTemplates, {'l'})
  {
    assert Intents(LoyaltyTemplates) == LoyaltyKeys;
    LoyaltyKeysDistinct();
    FromKeys(LoyaltyTemplates, LoyaltyKeys, 'l');
  }

  /** The network keys, in registration order. */
  const NetworkKeys: seq<string> := [
    "analytics.network.fleet_count",
    "analytics.network.fleet_range",
    "analytics.network.fleet_legs",
    "analytics.network.airport_aircraft",
    "analytics.network.fleet_capacity",
    "analytics.network.hub_identification",
    "analytics.network.fleet_restrictions",
    "analytics.network.fleet_utilization",
    "analytics.network.biz_class_fleet",
    "analytics.network.airport_count",
    "analytics.network.fleet_cx_fail",
    "analytics.network.orphan_airports",
    "analytics.network.demographic_utilization",
    "analytics.network.multileg_aircraft",
    "analytics.network.economy_workhorse",
    "analytics.network.shorthaul_only",
    "analytics.network.load_factor",
    "analytics.network.delay_prone_fleets",
    "analytics.network.route_frequency",
    "analytics.network.consistent_cx"
  ]

  lemma NetworkKeysDistinct()
    ensures forall i, j :: 0 <= i < j < |NetworkKeys| ==> NetworkKeys[i] != NetworkKeys[j]
    ensures forall i :: 0 <= i < |NetworkKeys| ==> Family(NetworkKeys[i]) == 'n'
  {}

  lemma NetworkRegistered()
    ensures DistinctIntents(NetworkTemplates) && FamiliesIn(NetworkTemplates, {'n'})
  {
    assert Intents(NetworkTemplates) == NetworkKeys;
    NetworkKeysDistinct();
    FromKeys(NetworkTemplates, NetworkKeys, 'n');
  }

  /** The graph keys, in registration order. */
  const GraphKeys: seq<string> := [
    "graph.path.specific_criteria",
    "graph.path.sequence",
    "graph.collab.co_passengers",
    "graph.pattern.complete_coverage",
    "graph.analytics.super_connector",
    "graph.analytics.route_clustering",
    "graph.flow.feeder_airports",
    "graph.algo.degree_centrality",
    "graph.pattern.consecutive_delays",
    "graph.analytics.bridge_flights",
    "graph.path.constrained_routing",
    "graph.analytics.explorer_passengers",
    "graph.algo.shortest_path",
    "graph.similarity.satisfaction_profile",
    "graph.anomaly.catering_fail",
    "graph.flow.next_best_action",
    "graph.analytics.aircraft_loyalty",
    "graph.cx.hub_transfer_effect",
    "graph.pattern.circular_journey",
    "graph.segmentation.unhappy_influencers"
  ]

  lemma GraphKeysDistinct()
    ensures forall i, j :: 0 <= i < j < |GraphKeys| ==> GraphKeys[i] != GraphKeys[j]
    ensures forall i :: 0 <= i < |GraphKeys| ==> Family(GraphKeys[i]) == 'g'
  {}

  lemma GraphRegistered()
    ensures DistinctIntents(GraphTemplates) && FamiliesIn(GraphTemplates, {'g'})
  {
    assert Intents(GraphTemplates) == GraphKeys;
    GraphKeysDistinct();
    FromKeys(GraphTemplates, GraphKeys, 'g');
  }

  /** Joining two registries with distinct keys from disjoint families
      keeps the keys distinct. */
  lemma DistinctAppend(a: seq<Template>, b: seq<Template>, fa: set<char>, fb: set<char>)
    requires DistinctIntents(a) && FamiliesIn(a, fa)
    requires DistinctIntents(b) && FamiliesIn(b, fb)
    requires fa !! fb
    ensures DistinctIntents(a + b) && FamiliesIn(a + b, fa + fb)
  {
    var ab := a + b;
    forall i, j | 0 <= i < j < |ab|
      ensures ab[i].intent != ab[j].intent
    {
      if j < |a| {
        assert ab[i] == a[i] && ab[j] == a[j];
      } else if |a| <= i {
        assert ab[i] == b[i - |a|] && ab[j] == b[j - |a|];
      } else {
        assert ab[i] == a[i] && ab[j] == b[j - |a|];
        assert Family(ab[i].intent) in fa && Family(ab[j].intent) in fb;
      }
    }
    forall i | 0 <= i < |ab|
      ensures Family(ab[i].intent) in fa + fb
    {
      if i < |a| {
        assert ab[i] == a[i];
      } else {
        assert ab[i] == b[i - |a|];
      }
    }
  }

  /** The retriever's dictionary literal repeats no key, so reading it first
      match wins or last match wins comes to the same thing. */
  lemma RegistryDistinct()
    ensures DistinctIntents(Registry)
  {
    CxRegistered();
    OpsRegistered();
    LoyaltyRegistered();
    NetworkRegistered();
    GraphRegistered();
    DistinctAppend(CxTemplates, OpsTemplates, {'c'}, {'o'});
    DistinctAppend(CxTemplates + OpsTemplates, LoyaltyTemplates, {'c', 'o'}, {'l'});
    DistinctAppend(CxTemplates + OpsTemplates + LoyaltyTemplates, NetworkTemplates,
                   {'c', 'o', 'l'}, {'n'});
    DistinctAppend(CxTemplates + OpsTemplates + LoyaltyTemplates + NetworkTemplates,
                   GraphTemplates, {'c', 'o', 'l', 'n'}, {'g'});
  }

  /** The analytics.network.economy_workhorse query text spells its parameter references unambiguously. */
  lemma EconomyWorkhorseWellFormed()
    ensures WellFormed(AnalyticsNetworkEconomyWorkhorse.pieces)
  {
    var ps := AnalyticsNetworkEconomyWorkhorse.pieces;
    var s0 := @"
            MATCH (";
    LiteralAppend(s0, @"j:Journey {passenger");
    s0 := s0 + @"j:Journey {passenger";
    LiteralAppend(s0, @"_class: 'Economy'})-");
    s0 := s0 + @"_class: 'Economy'})-";
    LiteralAppend(s0, @"[:ON]->(f:Flight) 
 ");
    s0 := s0 + @"[:ON]->(f:Flight) 
 ";
    LiteralAppend(s0, @"           RETURN f.");
    s0 := s0 + @"           RETURN f.";
    LiteralAppend(s0, @"fleet_type_descripti");
    s0 := s0 + @"fleet_type_descripti";
    LiteralAppend(s0, @"on, count(*) as coun");
    s0 := s0 + @"on, count(*) as coun";
    LiteralAppend(s0, @"t 
            ORDER");
    s0 := s0 + @"t 
            ORDER";
    LiteralAppend(s0, @" BY count DESC LIMIT");
    s0 := s0 + @" BY count DESC LIMIT";
    LiteralAppend(s0, @" 1
        ");
    s0 := s0 + @" 1
        ";
    assert ps[0].text == s0;
    assert WellFormed(ps[0..]);
  }

  /** The analytics.network.route_frequency query text spells its parameter references unambiguously. */
  lemma RouteFrequencyWellFormed()
    ensures WellFormed(AnalyticsNetworkRouteFrequency.pieces)
  {
    var ps := AnalyticsNetworkRouteFrequency.pieces;
    var s0 := @"
            MATCH (";
    LiteralAppend(s0, @"f:Flight)-[:DEPARTS_");
    s0 := s0 + @"f:Flight)-[:DEPARTS_";
    LiteralAppend(s0, @"FROM]->(o:Airport {s");
    s0 := s0 + @"FROM]->(o:Airport {s";
    LiteralAppend(s0, @"tation_code: ");
    s0 := s0 + @"tation_code: ";
    assert ps[0].text == s0;
    var s2 := @"}), (f)-[:ARRIVES_AT";
    LiteralAppend(s2, @"]->(d:Airport {stati");
    s2 := s2 + @"]->(d:Airport {stati";
    LiteralAppend(s2, @"on_code: ");
    s2 := s2 + @"on_code: ";
    assert ps[2].text == s2;
    var s4 := @"}) 
            RETU";
    LiteralAppend(s4, @"RN count(f) as fligh");
    s4 := s4 + @"RN count(f) as fligh";
    LiteralAppend(s4, @"t_count
        ");
    s4 := s4 + @"t_count
        ";
    assert ps[4].text == s4;
    assert IsName(ps[1].name) && IsName(ps[3].name);
    assert EndsName(ps[2].text) && EndsName(ps[4].text);
    WellFormedAlternating(ps);
  }

  /** Five pieces alternating literal and reference, whose literals after a
      reference cannot extend its name, are well formed. */
  lemma WellFormedAlternating(ps: seq<Piece>)
    requires |ps| == 5 && ps[0].Lit? && ps[1].Ref? && ps[2].Lit? && ps[3].Ref? && ps[4].Lit?
    requires IsLiteral(ps[0].text) && IsLiteral(ps[2].text) && IsLiteral(ps[4].text)
    requires IsName(ps[1].name) && IsName(ps[3].name)
    requires |ps[2].text| > 0 && |ps[4].text| > 0 && EndsName(ps[2].text) && EndsName(ps[4].text)
    ensures WellFormed(ps)
  {
    assert WellFormed(ps[4..]);
    assert Render(ps[4..]) == ps[4].text + Render(ps[5..]);
    assert WellFormed(ps[3..]);
    assert Render(ps[2..]) == ps[2].text + Render(ps[3..]);
    assert WellFormed(ps[2..]);
    assert WellFormed(ps[1..]);
    assert ps[0..] == ps;
  }
}
