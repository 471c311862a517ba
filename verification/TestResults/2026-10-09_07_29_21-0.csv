TestResult.DisplayName,TestResult.Outcome,TestResult.Duration,TestResult.ResourceCount,RandomSeed
Query.SelectKeptHead (correctness),Failed,00:00:00.8627235,2055005,5
Query.SelectKeptHead (well-formedness),Passed,00:00:00.2446776,57578,5
