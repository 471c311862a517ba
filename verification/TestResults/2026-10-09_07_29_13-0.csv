TestResult.DisplayName,TestResult.Outcome,TestResult.Duration,TestResult.ResourceCount,RandomSeed
Query.SelectKeptHead (correctness),Failed,00:00:00.9667738,2055007,3
Query.SelectKeptHead (well-formedness),Passed,00:00:00.1458908,57584,3
